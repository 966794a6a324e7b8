/** `clean_summary`: `" ".join(summary.split())`, which collapses every run of
    whitespace into one space and trims both ends. */
module Utils {
  import opened PyText

  /** A piece `str.split()` can return: non-empty and without whitespace. */
  predicate IsWord(w: string) {
    w != [] && forall k :: 0 <= k < |w| ==> !IsSpace(w[k])
  }

  /** Every element of the list is a word. */
  predicate AllWords(ws: seq<string>)
    decreases |ws|
  {
    ws == [] || (IsWord(ws[0]) && AllWords(ws[1..]))
  }

  /** The longest whitespace-free prefix of the input. */
  function WordAt(s: string): (w: string)
    ensures |w| <= |s| && w == s[..|w|]
    ensures forall k :: 0 <= k < |w| ==> !IsSpace(w[k])
    ensures |w| < |s| ==> IsSpace(s[|w|])
    ensures s != [] && !IsSpace(s[0]) ==> |w| >= 1
    decreases |s|
  {
    if s == [] || IsSpace(s[0]) then [] else [s[0]] + WordAt(s[1..])
  }

  /** `s.split()`: the maximal whitespace-free runs of `s`, in order. */
  function Words(s: string): seq<string>
    decreases |s|
  {
    if s == [] then []
    else if IsSpace(s[0]) then Words(s[1..])
    else
      var w := WordAt(s);
      [w] + Words(s[|w|..])
  }

  /** Every piece of `s.split()` is non-empty and free of whitespace. */
  lemma {:induction false} WordsAreWords(s: string)
    ensures AllWords(Words(s))
    decreases |s|
  {
    if s != [] {
      if IsSpace(s[0]) {
        WordsAreWords(s[1..]);
      } else {
        var w := WordAt(s);
        var rest := Words(s[|w|..]);
        WordsAreWords(s[|w|..]);
        var ws := [w] + rest;
        assert ws[0] == w && ws[1..] == rest;
      }
    }
  }

  /** `clean_summary(summary)`. */
  function CleanSummary(summary: string): string {
    Join(Words(summary), " ")
  }

  /** The shape every result has: no whitespace at either end, and every
      whitespace character is a single space between two non-spaces. */
  predicate IsClean(r: string) {
    forall k :: 0 <= k < |r| && IsSpace(r[k]) ==>
      r[k] == ' ' && 0 < k < |r| - 1 && !IsSpace(r[k - 1]) && !IsSpace(r[k + 1])
  }

  // ---- lemmas about the pieces ----

  lemma {:induction false} WordAtExact(w: string, rest: string)
    requires forall k :: 0 <= k < |w| ==> !IsSpace(w[k])
    requires rest == [] || IsSpace(rest[0])
    ensures WordAt(w + rest) == w
    decreases |w|
  {
    if w == [] {
    } else {
      assert (w + rest)[0] == w[0];
      assert (w + rest)[1..] == w[1..] + rest;
      WordAtExact(w[1..], rest);
      assert w == [w[0]] + w[1..];
    }
  }

  /** The join of words starts and ends with a non-space and is clean. */
  lemma {:induction false} JoinWordsClean(ws: seq<string>)
    requires ws != []
    requires AllWords(ws)
    ensures var j := Join(ws, " ");
      j != [] && !IsSpace(j[0]) && !IsSpace(j[|j| - 1]) && IsClean(j)
    decreases |ws|
  {
    if |ws| > 1 {
      JoinWordsClean(ws[1..]);
      JoinCons(ws[0], ws[1..], " ");
      assert ws == [ws[0]] + ws[1..];
      JoinWordClean(ws[0], Join(ws[1..], " "));
    } else {
      assert IsWord(ws[0]);
    }
  }

  /** A word, a space and a clean join are a clean join. */
  lemma JoinWordClean(w: string, jr: string)
    requires IsWord(w)
    requires jr != [] && !IsSpace(jr[0]) && !IsSpace(jr[|jr| - 1]) && IsClean(jr)
    ensures var j := w + " " + jr;
      j != [] && !IsSpace(j[0]) && !IsSpace(j[|j| - 1]) && IsClean(j)
  {
    var j := w + " " + jr;
    forall k | 0 <= k < |j| && IsSpace(j[k])
      ensures j[k] == ' ' && 0 < k < |j| - 1 && !IsSpace(j[k - 1]) && !IsSpace(j[k + 1])
    {
      if k == |w| {
        assert j[k - 1] == w[|w| - 1];
        assert j[k + 1] == jr[0];
      } else if k > |w| {
        assert j[k] == jr[k - |w| - 1];
        assert j[k - 1] == jr[k - |w| - 2];
        assert j[k + 1] == jr[k - |w|];
      }
    }
    assert j[|j| - 1] == jr[|jr| - 1];
  }

  /** A word followed by whitespace or nothing is split off first. */
  lemma WordsCons(w: string, rest: string)
    requires IsWord(w)
    requires rest == [] || IsSpace(rest[0])
    ensures Words(w + rest) == [w] + Words(rest)
  {
    var s := w + rest;
    assert s[0] == w[0];
    WordAtExact(w, rest);
    assert s[|w|..] == rest;
  }

  /** A leading space does not change the words. */
  lemma WordsSpace(x: string)
    ensures Words(" " + x) == Words(x)
  {
    assert (" " + x)[1..] == x;
  }

  /** Splitting a join of words gives the words back. */
  lemma {:induction false} WordsOfJoin(ws: seq<string>)
    requires AllWords(ws)
    ensures Words(Join(ws, " ")) == ws
    decreases |ws|
  {
    if ws == [] {
    } else if |ws| == 1 {
      assert IsWord(ws[0]);
      assert ws[0] + [] == ws[0];
      WordsCons(ws[0], []);
    } else {
      WordsOfJoin(ws[1..]);
      assert IsWord(ws[0]);
      WordsOfJoinStep(ws[0], ws[1..]);
      assert ws == [ws[0]] + ws[1..];
    }
  }

  lemma WordsOfJoinStep(w: string, rest: seq<string>)
    requires IsWord(w) && rest != []
    requires Words(Join(rest, " ")) == rest
    ensures Words(Join([w] + rest, " ")) == [w] + rest
  {
    var jr := Join(rest, " ");
    JoinCons(w, rest, " ");
    WordsCons(w, " " + jr);
    WordsSpace(jr);
  }

  /** Each word of `s` is a whitespace-free run of `s`: the words of a string
      that is empty or all whitespace are none. */
  lemma {:induction false} WordsOfBlank(s: string)
    ensures Words(s) == [] <==> forall k :: 0 <= k < |s| ==> IsSpace(s[k])
    decreases |s|
  {
    if s != [] && IsSpace(s[0]) {
      WordsOfBlank(s[1..]);
      forall k | 1 <= k < |s| ensures s[k] == s[1..][k - 1] {
      }
    }
  }

  /** The characters of `s` that are not whitespace, in order. */
  function NonSpaces(s: string): string
    decreases |s|
  {
    if s == [] then [] else (if IsSpace(s[0]) then [] else [s[0]]) + NonSpaces(s[1..])
  }

  /** The non-space characters of a string start with its first word. */
  lemma {:induction false} NonSpacesAfterWord(s: string)
    ensures NonSpaces(s) == WordAt(s) + NonSpaces(s[|WordAt(s)|..])
    decreases |s|
  {
    if s != [] && !IsSpace(s[0]) {
      var w', rest := WordAt(s[1..]), s[1..][|WordAt(s[1..])|..];
      NonSpacesAfterWord(s[1..]);
      assert WordAt(s) == [s[0]] + w';
      assert rest == s[|WordAt(s)|..];
      calc {
        NonSpaces(s);
        [s[0]] + NonSpaces(s[1..]);
        [s[0]] + (w' + NonSpaces(rest));
        ([s[0]] + w') + NonSpaces(rest);
      }
    }
  }

  /** `s.split()` loses nothing but whitespace: the words, put back together,
      are exactly the non-space characters of `s`. */
  lemma {:induction false} WordsKeepText(s: string)
    ensures Join(Words(s), "") == NonSpaces(s)
    decreases |s|
  {
    if s != [] {
      if IsSpace(s[0]) {
        WordsKeepText(s[1..]);
      } else {
        var w := WordAt(s);
        var rest := Words(s[|w|..]);
        WordsKeepText(s[|w|..]);
        NonSpacesAfterWord(s);
        JoinGlued(w, rest);
        assert Words(s) == [w] + rest;
      }
    }
  }

  /** Joining with no separator glues the first part to the rest. */
  lemma JoinGlued(w: string, rest: seq<string>)
    ensures Join([w] + rest, "") == w + Join(rest, "")
  {
    if rest == [] {
      assert [w] + rest == [w];
    } else {
      JoinCons(w, rest, "");
    }
  }

  /** Whitespace separates words: the words around a whitespace character
      are the words of the text before it followed by those of the text after it. */
  lemma {:induction false} WordsSplitAtSpace(a: string, c: char, b: string)
    requires IsSpace(c)
    ensures Words(a + [c] + b) == Words(a) + Words(b)
    decreases |a|
  {
    var s := a + [c] + b;
    if a == [] {
      assert s[1..] == b;
    } else if IsSpace(a[0]) {
      assert s[1..] == a[1..] + [c] + b;
      WordsSplitAtSpace(a[1..], c, b);
    } else {
      var w := WordAt(a);
      var rest := a[|w|..] + [c] + b;
      assert a == w + a[|w|..];
      assert s == w + rest;
      assert IsWord(w);
      WordsCons(w, rest);
      WordsSplitAtSpace(a[|w|..], c, b);
    }
  }

  /** The part after the first space of a clean string is clean. */
  lemma CleanTail(s: string, i: nat)
    requires IsClean(s) && i < |s| && s[i] == ' '
    ensures var t := s[i + 1..]; t != [] && !IsSpace(t[0]) && IsClean(t)
  {
    var t := s[i + 1..];
    assert t[0] == s[i + 1];
    forall k | 0 <= k < |t| && IsSpace(t[k])
      ensures t[k] == ' ' && 0 < k < |t| - 1 && !IsSpace(t[k - 1]) && !IsSpace(t[k + 1])
    {
      assert t[k] == s[k + i + 1];
      assert t[k + 1] == s[k + i + 2];
      assert t[k - 1] == s[k + i];
    }
  }

  /** A string cut around position `i`. */
  lemma CutAt(s: string, i: nat)
    requires i < |s|
    ensures s == s[..i] + ([s[i]] + s[i + 1..])
  {
  }

  /** A clean string is its own split-and-join. */
  lemma {:induction false} CleanIsFixed(s: string)
    requires IsClean(s)
    ensures CleanSummary(s) == s
    decreases |s|
  {
    if s != [] {
      var w := WordAt(s);
      assert IsWord(w);
      if |w| == |s| {
        assert s == w + [];
        WordsCons(w, []);
      } else {
        var t := s[|w| + 1..];
        CleanTail(s, |w|);
        CleanIsFixed(t);
        CutAt(s, |w|);
        CleanIsFixedStep(w, t);
      }
    }
  }

  lemma CleanIsFixedStep(w: string, t: string)
    requires IsWord(w) && t != [] && !IsSpace(t[0])
    requires CleanSummary(t) == t
    ensures CleanSummary(w + (" " + t)) == w + (" " + t)
  {
    WordsOfBlank(t);
    WordsCons(w, " " + t);
    WordsSpace(t);
    JoinCons(w, Words(t), " ");
  }

  // ---- the properties of clean_summary ----

  /** The result has no leading or trailing whitespace, never two spaces in a
      row, and no whitespace other than single spaces. */
  lemma CleanSummaryShape(summary: string)
    ensures var r := CleanSummary(summary);
      && IsClean(r)
      && (r != [] ==> !IsSpace(r[0]) && !IsSpace(r[|r| - 1]))
      && (forall k :: 0 <= k < |r| - 1 ==> !(r[k] == ' ' && r[k + 1] == ' '))
      && (forall k :: 0 <= k < |r| && IsSpace(r[k]) ==> r[k] == ' ')
  {
    var ws := Words(summary);
    WordsAreWords(summary);
    if ws != [] {
      JoinWordsClean(ws);
      assert IsWord(ws[0]);
    }
  }

  /** The words of the result are the words of the input, in order. */
  lemma CleanSummaryKeepsWords(summary: string)
    ensures Words(CleanSummary(summary)) == Words(summary)
  {
    WordsAreWords(summary);
    WordsOfJoin(Words(summary));
  }

  /** The result holds exactly the non-space characters of the input, in order. */
  lemma CleanSummaryKeepsText(summary: string)
    ensures NonSpaces(CleanSummary(summary)) == NonSpaces(summary)
  {
    CleanSummaryKeepsWords(summary);
    WordsKeepText(summary);
    WordsKeepText(CleanSummary(summary));
  }

  /** Cleaning twice is cleaning once. */
  lemma CleanSummaryIdempotent(summary: string)
    ensures CleanSummary(CleanSummary(summary)) == CleanSummary(summary)
  {
    CleanSummaryKeepsWords(summary);
  }

  /** The result is empty exactly when the input is empty or all whitespace. */
  lemma CleanSummaryEmpty(summary: string)
    ensures CleanSummary(summary) == "" <==> forall k :: 0 <= k < |summary| ==> IsSpace(summary[k])
  {
    WordsOfBlank(summary);
    WordsAreWords(summary);
    var ws := Words(summary);
    if ws != [] {
      JoinWordsClean(ws);
    }
  }

  /** The strings `clean_summary` leaves unchanged are exactly the clean ones. */
  lemma CleanSummaryFixedPoints(s: string)
    ensures CleanSummary(s) == s <==> IsClean(s)
  {
    if IsClean(s) {
      CleanIsFixed(s);
    } else {
      CleanSummaryShape(s);
    }
  }
}
