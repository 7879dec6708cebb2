/** Bytes, Python's `str.split()` with no separator, and `" ".join`. */
module Text {
  newtype Byte = x: int | 0 <= x < 256
  type Bytes = seq<Byte>

  predicate IsSpace(ch: char) {
    || '\t' <= ch <= '\r'
    || '\U{1C}' <= ch <= ' '
    || ch in {'\U{85}', '\U{A0}', '\U{1680}', '\U{2028}', '\U{2029}', '\U{202F}', '\U{205F}', '\U{3000}'}
    || '\U{2000}' <= ch <= '\U{200A}'
  }

  predicate IsWord(s: string) { s != "" && forall i :: 0 <= i < |s| ==> !IsSpace(s[i]) }

  /** The maximal runs of non-space characters, the first one continuing `word`. */
  function Words(s: string, word: string): seq<string>
    decreases |s|
  {
    if s == "" then (if word == "" then [] else [word])
    else if IsSpace(s[0]) then (if word == "" then [] else [word]) + Words(s[1..], "")
    else Words(s[1..], word + [s[0]])
  }

  lemma {:induction false} WordsOf(word: string, w: string, rest: string)
    requires IsWord(word + w) && rest != "" && IsSpace(rest[0])
    ensures Words(w + rest, word) == [word + w] + Words(rest[1..], "")
    decreases |w|
  {
    if w == "" {
      assert w + rest == rest && word + w == word;
    } else {
      assert (w + rest)[0] == w[0] && (w + rest)[1..] == w[1..] + rest;
      assert (word + w)[|word|] == w[0];
      assert word + [w[0]] + w[1..] == word + w;
      WordsOf(word + [w[0]], w[1..], rest);
    }
  }

  /** The characters of `s` that are not white space, in order. */
  function NonSpace(s: string): string {
    if s == "" then "" else (if IsSpace(s[0]) then "" else [s[0]]) + NonSpace(s[1..])
  }

  function Concat(words: seq<string>): string {
    if words == [] then "" else words[0] + Concat(words[1..])
  }

  /** `" ".join(words)` */
  function Joined(words: seq<string>): string {
    if words == [] then "" else if |words| == 1 then words[0] else words[0] + " " + Joined(words[1..])
  }

  predicate AllWords(words: seq<string>) { forall i :: 0 <= i < |words| ==> IsWord(words[i]) }

  /** Splitting gives words, and loses nothing but white space. */
  lemma {:induction false} WordsCover(s: string, word: string)
    requires word == "" || IsWord(word)
    ensures AllWords(Words(s, word)) && Concat(Words(s, word)) == word + NonSpace(s)
    decreases |s|
  {
    if s == "" {
      assert Concat([]) == "" && Concat([word]) == word + Concat([word][1..]);
    } else if IsSpace(s[0]) {
      WordsCover(s[1..], "");
      var rest := Words(s[1..], "");
      assert NonSpace(s) == "" + NonSpace(s[1..]) == NonSpace(s[1..]);
      if word == "" {
        assert [] + rest == rest;
      } else {
        assert ([word] + rest)[1..] == rest;
      }
    } else {
      WordsCover(s[1..], word + [s[0]]);
      assert word + [s[0]] + NonSpace(s[1..]) == word + ([s[0]] + NonSpace(s[1..]));
    }
  }

  lemma {:induction false} LastWord(word: string, w: string)
    requires IsWord(word + w)
    ensures Words(w, word) == [word + w]
    decreases |w|
  {
    if w == "" {
      assert word + w == word;
    } else {
      assert (word + w)[|word|] == w[0];
      assert word + [w[0]] + w[1..] == word + w;
      LastWord(word + [w[0]], w[1..]);
    }
  }

  lemma FirstWord(w: string, tail: string)
    requires IsWord(w)
    ensures Words(w + " " + tail, "") == [w] + Words(tail, "")
  {
    var rest := " " + tail;
    assert w + " " + tail == w + rest && rest[1..] == tail && "" + w == w;
    WordsOf("", w, rest);
  }

  /** Joining words and splitting again gives the words back. */
  lemma {:induction false} WordsJoined(words: seq<string>)
    requires AllWords(words)
    ensures Words(Joined(words), "") == words
  {
    hide IsSpace, IsWord;
    if |words| == 1 {
      assert "" + words[0] == words[0];
      LastWord("", words[0]);
    } else if words != [] {
      FirstWord(words[0], Joined(words[1..]));
      WordsJoined(words[1..]);
    }
  }

  /** Every white space is one blank between two words. */
  predicate SingleSpaced(s: string) {
    forall i :: 0 <= i < |s| && IsSpace(s[i]) ==> s[i] == ' ' && 0 < i < |s| - 1 && !IsSpace(s[i + 1])
  }

  lemma {:induction false} JoinedSpaced(words: seq<string>)
    requires AllWords(words)
    ensures SingleSpaced(Joined(words))
    ensures words != [] ==> Joined(words) != "" && !IsSpace(Joined(words)[0])
  {
    if |words| > 1 {
      var w, rest := words[0], Joined(words[1..]);
      JoinedSpaced(words[1..]);
      var s := Joined(words);
      assert s == w + " " + rest;
      forall i | 0 <= i < |s| && IsSpace(s[i]) ensures s[i] == ' ' && 0 < i < |s| - 1 && !IsSpace(s[i + 1]) {
        if i > |w| { assert s[i] == rest[i - |w| - 1]; } else { assert i == |w|; }
      }
    }
  }
}
