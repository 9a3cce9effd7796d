/** `analyze_content_structure` of the chapterization example: text
    statistics over a transcript, a word-frequency table, the repeated words
    that are not stop words, ranked by count, and the summary dict. The word
    list `text.lower().split()` is an input: case folding and whitespace
    splitting are not part of the model. */
module ContentAnalysis {
  import opened Wrappers
  import opened PyValue
  import Strings

  /** One `(word, count)` item of the frequency dict. */
  datatype WordCount = WordCount(word: string, count: nat)

  /** The words in the order of their first occurrence, each once: the key
      order of a dict filled by walking the words. */
  function Distinct(ws: seq<string>): (d: seq<string>)
    ensures forall w :: w in d ==> w in ws
    decreases |ws|
  {
    if ws == [] then []
    else
      var d := Distinct(ws[..|ws| - 1]);
      if ws[|ws| - 1] in d then d else d + [ws[|ws| - 1]]
  }

  /** The index of the first occurrence of `w`. */
  function FirstIndex(ws: seq<string>, w: string): (i: nat)
    requires w in ws
    ensures i < |ws| && ws[i] == w && w !in ws[..i]
  {
    if ws[0] == w then 0 else 1 + FirstIndex(ws[1..], w)
  }

  /** The frequency table `word_freq` should hold: every distinct word, in
      first-occurrence order, with the number of times it occurs. */
  function FreqTable(ws: seq<string>): (t: seq<WordCount>) {
    var d := Distinct(ws);
    seq(|d|, k requires 0 <= k < |d| => WordCount(d[k], multiset(ws)[d[k]]))
  }

  function Words(t: seq<WordCount>): (ks: seq<string>)
    ensures |ks| == |t|
    ensures forall k :: 0 <= k < |t| ==> ks[k] == t[k].word
  {
    seq(|t|, k requires 0 <= k < |t| => t[k].word)
  }

  /** `word_freq.get(word)`: where the word sits in the table, if it does. */
  function Find(t: seq<WordCount>, w: string): (r: Option<nat>)
    ensures r.Some? ==> r.value < |t| && t[r.value].word == w
    ensures r.None? <==> w !in Words(t)
  {
    if t == [] then None
    else if t[0].word == w then Some(0)
    else match Find(t[1..], w)
      case None => (assert Words(t) == [t[0].word] + Words(t[1..]); None)
      case Some(k) => Some(k + 1)
  }

  /** The distinct words: no repeats, exactly the words of the list, and in
      the order of their first occurrences. */
  lemma DistinctProps(ws: seq<string>)
    ensures forall i, j :: 0 <= i < j < |Distinct(ws)| ==> Distinct(ws)[i] != Distinct(ws)[j]
    ensures forall w :: w in Distinct(ws) <==> w in ws
    ensures forall i, j :: 0 <= i < j < |Distinct(ws)| ==>
      FirstIndex(ws, Distinct(ws)[i]) < FirstIndex(ws, Distinct(ws)[j])
  {
    DistinctMembers(ws);
    DistinctOrder(ws);
  }

  /** The distinct words have no repeats and are exactly the words of the
      list. */
  lemma {:induction false} DistinctMembers(ws: seq<string>)
    ensures forall i, j :: 0 <= i < j < |Distinct(ws)| ==> Distinct(ws)[i] != Distinct(ws)[j]
    ensures forall w :: w in Distinct(ws) <==> w in ws
    decreases |ws|
  {
    if ws != [] {
      var init, x := ws[..|ws| - 1], ws[|ws| - 1];
      assert ws == init + [x];
      DistinctMembers(init);
    }
  }

  /** The distinct words come in the order of their first occurrences. */
  lemma {:induction false} DistinctOrder(ws: seq<string>)
    ensures forall i, j :: 0 <= i < j < |Distinct(ws)| ==>
      FirstIndex(ws, Distinct(ws)[i]) < FirstIndex(ws, Distinct(ws)[j])
    decreases |ws|
  {
    if ws != [] {
      var init, x := ws[..|ws| - 1], ws[|ws| - 1];
      assert ws == init + [x];
      DistinctOrder(init);
      DistinctMembers(init);
      var d := Distinct(init);
      if x in d {
        forall w | w in d ensures FirstIndex(ws, w) == FirstIndex(init, w) {
          FirstIndexSnoc(init, x, w);
        }
      } else {
        var d' := Distinct(ws);
        assert d' == d + [x];
        forall i, j | 0 <= i < j < |d'| ensures FirstIndex(ws, d'[i]) < FirstIndex(ws, d'[j]) {
          FirstIndexSnoc(init, x, d'[i]);
          FirstIndexSnoc(init, x, d'[j]);
          if j < |d| {
            assert d'[i] == d[i] && d'[j] == d[j];
          }
        }
      }
    }
  }

  /** Appending a word does not move the first occurrence of an earlier
      word; a new word first occurs at the end. */
  lemma {:induction false} FirstIndexSnoc(ws: seq<string>, x: string, w: string)
    requires w in ws + [x]
    ensures w in ws ==> FirstIndex(ws + [x], w) == FirstIndex(ws, w)
    ensures w !in ws ==> FirstIndex(ws + [x], w) == |ws|
    decreases |ws|
  {
    if ws != [] && ws[0] != w {
      assert (ws + [x])[1..] == ws[1..] + [x];
      FirstIndexSnoc(ws[1..], x, w);
    }
  }

  /** The table lists each word of the list once, in first-occurrence order,
      and holds its number of occurrences; words not in the list have no
      entry. */
  lemma FreqTableProps(ws: seq<string>)
    ensures forall i, j :: 0 <= i < j < |FreqTable(ws)| ==> FreqTable(ws)[i].word != FreqTable(ws)[j].word
    ensures forall w :: w in Words(FreqTable(ws)) <==> w in ws
    ensures forall k :: 0 <= k < |FreqTable(ws)| ==>
      FreqTable(ws)[k].count == multiset(ws)[FreqTable(ws)[k].word] && FreqTable(ws)[k].count >= 1
    ensures forall i, j :: 0 <= i < j < |FreqTable(ws)| ==>
      FirstIndex(ws, FreqTable(ws)[i].word) < FirstIndex(ws, FreqTable(ws)[j].word)
  {
    DistinctProps(ws);
    var t := FreqTable(ws);
    assert Words(t) == Distinct(ws);
    forall k | 0 <= k < |t| ensures t[k].count >= 1 {
      assert t[k].word == Distinct(ws)[k] && t[k].word in ws;
      assert t[k].word in multiset(ws);
    }
  }

  /** One step of the loop: counting one more word. */
  lemma FreqTableSnoc(ws: seq<string>, w: string)
    ensures Distinct(ws + [w]) == if w in Distinct(ws) then Distinct(ws) else Distinct(ws) + [w]
    ensures forall x :: multiset(ws + [w])[x] == multiset(ws)[x] + (if x == w then 1 else 0)
  {
    assert (ws + [w])[..|ws|] == ws;
  }

  /** Counting a word already in the table adds one to its entry. */
  lemma CountSeen(ws: seq<string>, w: string, k: nat)
    requires k < |FreqTable(ws)| && FreqTable(ws)[k].word == w
    ensures FreqTable(ws)[k := WordCount(w, FreqTable(ws)[k].count + 1)] == FreqTable(ws + [w])
  {
    FreqTableSnoc(ws, w);
    DistinctMembers(ws);
    var d := Distinct(ws);
    var t, t' := FreqTable(ws), FreqTable(ws + [w]);
    assert d[k] == w;
    assert Distinct(ws + [w]) == d;
    forall j | 0 <= j < |t| ensures t'[j] == t[k := WordCount(w, t[k].count + 1)][j] {
      if j != k {
        assert d[j] != w;
      }
    }
  }

  /** Counting a new word appends it with count one. */
  lemma CountNew(ws: seq<string>, w: string)
    requires w !in Words(FreqTable(ws))
    ensures FreqTable(ws) + [WordCount(w, 1)] == FreqTable(ws + [w])
  {
    FreqTableSnoc(ws, w);
    var d := Distinct(ws);
    assert Words(FreqTable(ws)) == d;
    assert w !in d;
    var t, t' := FreqTable(ws), FreqTable(ws + [w]);
    assert Distinct(ws + [w]) == d + [w];
    assert |t'| == |t| + 1;
    forall k | 0 <= k < |t| ensures t'[k] == t[k] {
      assert d[k] != w;
    }
    assert multiset(ws)[w] == 0 by {
      DistinctProps(ws);
    }
  }

  /** The counting loop:
      `for word in words: word_freq[word] = word_freq.get(word, 0) + 1`. */
  method CountWords(words: seq<string>) returns (freq: seq<WordCount>)
    ensures freq == FreqTable(words)
  {
    freq := [];
    for i := 0 to |words|
      invariant freq == FreqTable(words[..i])
    {
      var w := words[i];
      assert words[..i + 1] == words[..i] + [w];
      match Find(freq, w)
      case Some(k) =>
        CountSeen(words[..i], w, k);
        freq := freq[k := WordCount(w, freq[k].count + 1)];
      case None =>
        CountNew(words[..i], w);
        freq := freq + [WordCount(w, 1)];
    }
    assert words[..|words|] == words;
  }

  /** The stop words the example leaves out of the ranking. */
  function StopWords(): set<string> {
    {"the", "a", "an", "and", "or", "but", "in", "on", "at", "to", "for", "of", "with", "by", "is", "this", "that"}
  }

  /** The filter of the `common_words` comprehension. */
  predicate Keep(e: WordCount) {
    e.count > 1 && e.word !in StopWords() && |e.word| > 2
  }

  /** `[(word, count) for word, count in word_freq.items() if ...]`. */
  function Common(t: seq<WordCount>): seq<WordCount> {
    if t == [] then [] else (if Keep(t[0]) then [t[0]] else []) + Common(t[1..])
  }

  /** Where a word first occurs in `ws`, which orders the table's items; a
      word not in `ws` ranks after all of them. */
  function Rank(ws: seq<string>, e: WordCount): int {
    if e.word in ws then FirstIndex(ws, e.word) else |ws|
  }

  /** The items are in increasing rank. */
  predicate Increasing(rank: WordCount -> int, s: seq<WordCount>) {
    forall i, j :: 0 <= i < j < |s| ==> rank(s[i]) < rank(s[j])
  }

  /** The comprehension keeps exactly the items passing the filter, and keeps
      them in table order. */
  lemma {:induction false} CommonProps(rank: WordCount -> int, t: seq<WordCount>)
    ensures forall e :: e in Common(t) <==> e in t && Keep(e)
    ensures Increasing(rank, t) ==> Increasing(rank, Common(t))
  {
    if t != [] {
      CommonProps(rank, t[1..]);
      assert forall e :: e in t <==> e == t[0] || e in t[1..];
      if Increasing(rank, t) {
        assert Increasing(rank, t[1..]);
        assert forall e :: e in t[1..] ==> rank(t[0]) < rank(e);
      }
    }
  }

  /** Stable insertion by count, largest first: `x` goes before the first
      item whose count does not exceed its own. */
  function Insert(x: WordCount, t: seq<WordCount>): seq<WordCount> {
    if t == [] then [x]
    else if t[0].count <= x.count then [x] + t
    else [t[0]] + Insert(x, t[1..])
  }

  /** `common_words.sort(key=lambda x: x[1], reverse=True)`: a stable sort by
      count, largest first. */
  function SortByCount(s: seq<WordCount>): seq<WordCount> {
    if s == [] then [] else Insert(s[0], SortByCount(s[1..]))
  }

  predicate ByCountDesc(s: seq<WordCount>) {
    forall i, j :: 0 <= i < j < |s| ==> s[i].count >= s[j].count
  }

  /** Items of equal count are in increasing rank. */
  predicate TiesBy(rank: WordCount -> int, s: seq<WordCount>) {
    forall i, j :: 0 <= i < j < |s| && s[i].count == s[j].count ==> rank(s[i]) < rank(s[j])
  }

  /** Items of equal count are in the order their words first occur. */
  predicate TiesByRank(ws: seq<string>, s: seq<WordCount>) {
    forall i, j :: 0 <= i < j < |s| && s[i].count == s[j].count ==> Rank(ws, s[i]) < Rank(ws, s[j])
  }

  lemma {:induction false} InsertPerm(x: WordCount, t: seq<WordCount>)
    ensures multiset(Insert(x, t)) == multiset(t) + multiset{x}
  {
    if t != [] && t[0].count > x.count {
      InsertPerm(x, t[1..]);
      assert t == [t[0]] + t[1..];
    }
  }

  lemma {:induction false} InsertSorted(x: WordCount, t: seq<WordCount>)
    requires ByCountDesc(t)
    ensures ByCountDesc(Insert(x, t))
  {
    if t != [] && t[0].count > x.count {
      var r := Insert(x, t[1..]);
      InsertSorted(x, t[1..]);
      InsertBelowHead(x, t);
      SortedCons(t[0], r);
      assert Insert(x, t) == [t[0]] + r;
    }
  }

  /** When x goes behind the head of t, no item of the rest outcounts the
      head. */
  lemma InsertBelowHead(x: WordCount, t: seq<WordCount>)
    requires t != [] && t[0].count > x.count && ByCountDesc(t)
    ensures forall y :: y in Insert(x, t[1..]) ==> y.count <= t[0].count
  {
    var r := Insert(x, t[1..]);
    InsertPerm(x, t[1..]);
    forall y | y in r ensures y.count <= t[0].count {
      assert y in multiset(r);
      if y != x {
        var j :| 0 <= j < |t[1..]| && t[1..][j] == y;
        assert t[1 + j] == y;
      }
    }
  }

  lemma SortedCons(a: WordCount, r: seq<WordCount>)
    requires ByCountDesc(r) && forall y :: y in r ==> y.count <= a.count
    ensures ByCountDesc([a] + r)
  {
    var s := [a] + r;
    forall i, j | 0 <= i < j < |s| ensures s[i].count >= s[j].count {
      if i == 0 {
        assert s[j] == r[j - 1] && s[j] in r;
      } else {
        assert s[i] == r[i - 1] && s[j] == r[j - 1];
      }
    }
  }

  lemma {:induction false} InsertTies(rank: WordCount -> int, x: WordCount, t: seq<WordCount>)
    requires TiesBy(rank, t) && forall y :: y in t ==> rank(x) < rank(y)
    ensures TiesBy(rank, Insert(x, t))
  {
    if t != [] && t[0].count > x.count {
      var r := Insert(x, t[1..]);
      assert forall y :: y in t[1..] ==> y in t;
      InsertTies(rank, x, t[1..]);
      InsertBehindHead(rank, x, t);
      TiesCons(rank, t[0], r);
      assert Insert(x, t) == [t[0]] + r;
    }
  }

  /** When x goes behind the head of t, every item of the rest that ties with
      the head ranks after it. */
  lemma InsertBehindHead(rank: WordCount -> int, x: WordCount, t: seq<WordCount>)
    requires t != [] && t[0].count > x.count && TiesBy(rank, t)
    ensures forall y :: y in Insert(x, t[1..]) && y.count == t[0].count ==> rank(t[0]) < rank(y)
  {
    var r := Insert(x, t[1..]);
    InsertPerm(x, t[1..]);
    forall y | y in r && y.count == t[0].count ensures rank(t[0]) < rank(y) {
      assert y in multiset(r) && y != x;
      var j :| 0 <= j < |t[1..]| && t[1..][j] == y;
      assert t[1 + j] == y;
    }
  }

  lemma TiesCons(rank: WordCount -> int, a: WordCount, r: seq<WordCount>)
    requires TiesBy(rank, r)
    requires forall y :: y in r && y.count == a.count ==> rank(a) < rank(y)
    ensures TiesBy(rank, [a] + r)
  {
    var s := [a] + r;
    forall i, j | 0 <= i < j < |s| && s[i].count == s[j].count ensures rank(s[i]) < rank(s[j]) {
      if i == 0 {
        assert s[j] == r[j - 1] && s[j] in r;
      } else {
        assert s[i] == r[i - 1] && s[j] == r[j - 1];
      }
    }
  }

  /** The sort is a permutation. */
  lemma {:induction false} SortPerm(s: seq<WordCount>)
    ensures multiset(SortByCount(s)) == multiset(s)
  {
    if s != [] {
      SortPerm(s[1..]);
      InsertPerm(s[0], SortByCount(s[1..]));
      assert s == [s[0]] + s[1..];
    }
  }

  /** The sort orders by count, largest first. */
  lemma {:induction false} SortSorted(s: seq<WordCount>)
    ensures ByCountDesc(SortByCount(s))
  {
    if s != [] {
      SortSorted(s[1..]);
      InsertSorted(s[0], SortByCount(s[1..]));
    }
  }

  /** The sort keeps items of equal count in their original order. */
  lemma {:induction false} SortTies(rank: WordCount -> int, s: seq<WordCount>)
    requires Increasing(rank, s)
    ensures TiesBy(rank, SortByCount(s))
  {
    if s != [] {
      assert Increasing(rank, s[1..]);
      SortTies(rank, s[1..]);
      var r := SortByCount(s[1..]);
      SortPerm(s[1..]);
      forall y | y in r ensures rank(s[0]) < rank(y) {
        assert y in multiset(s[1..]);
        var j :| 0 <= j < |s[1..]| && s[1..][j] == y;
        assert s[1 + j] == y;
      }
      InsertTies(rank, s[0], r);
    }
  }

  /** The ranked repeated words of a word list. */
  function RepeatedWords(words: seq<string>): seq<WordCount> {
    SortByCount(Common(FreqTable(words)))
  }

  /** `common_words` holds exactly the words occurring more than once that
      are not stop words and have more than two characters, each once with
      its count; it is ordered by count, largest first, and words of equal
      count are in the order they first occur. */
  lemma RepeatedWordsProps(words: seq<string>)
    ensures forall e :: e in RepeatedWords(words) <==>
      e.word in words && e.count == multiset(words)[e.word] && Keep(e)
    ensures ByCountDesc(RepeatedWords(words))
    ensures TiesByRank(words, RepeatedWords(words))
  {
    var t := FreqTable(words);
    var rank := (e: WordCount) => Rank(words, e);
    FreqTableProps(words);
    assert Increasing(rank, t) by {
      forall i, j | 0 <= i < j < |t| ensures rank(t[i]) < rank(t[j]) {
        assert t[i].word in Words(t) && t[j].word in Words(t);
      }
    }
    forall e ensures e in t <==> e.word in words && e.count == multiset(words)[e.word] {
      if e.word in words && e.count == multiset(words)[e.word] {
        assert e.word in Words(t);
        var k :| 0 <= k < |t| && Words(t)[k] == e.word;
        assert t[k] == e;
      }
    }
    CommonProps(rank, t);
    SortPerm(Common(t));
    SortSorted(Common(t));
    SortTies(rank, Common(t));
    assert TiesBy(rank, RepeatedWords(words));
    forall e ensures e in RepeatedWords(words) <==> e in Common(t) {
      assert e in RepeatedWords(words) <==> e in multiset(RepeatedWords(words));
    }
  }

  function Min(a: int, b: int): int { if a < b then a else b }

  /** `f"{word}({count})"` */
  function Label(e: WordCount): string {
    e.word + "(" + Strings.Decimal(e.count) + ")"
  }

  function Labels(s: seq<WordCount>): (ls: seq<string>)
    ensures |ls| == |s| && forall i :: 0 <= i < |s| ==> ls[i] == Label(s[i])
  {
    seq(|s|, i requires 0 <= i < |s| => Label(s[i]))
  }

  /** `common_words[:5]` */
  function Top(ranked: seq<WordCount>): seq<WordCount> {
    ranked[..Min(5, |ranked|)]
  }

  /** At most five words are shown, the first ones of the ranking, and no
      word left out has a larger count than one shown. */
  lemma TopProps(ranked: seq<WordCount>)
    requires ByCountDesc(ranked)
    ensures |Top(ranked)| <= 5 && (|ranked| >= 5 ==> |Top(ranked)| == 5)
    ensures Top(ranked) <= ranked
    ensures forall i, j :: 0 <= i < |Top(ranked)| <= j < |ranked| ==> Top(ranked)[i].count >= ranked[j].count
  {
  }

  /** The pieces of `text.split('.')` holding something besides whitespace. */
  function NonBlankCount(pieces: seq<string>): (n: nat)
    ensures n <= |pieces|
  {
    if pieces == [] then 0 else (if Strings.NonBlank(pieces[0]) then 1 else 0) + NonBlankCount(pieces[1..])
  }

  /** `len([s for s in text.split('.') if s.strip()])` */
  function Sentences(text: string): nat {
    NonBlankCount(Strings.Split(text, '.'))
  }

  /** There is one piece more than there are full stops. */
  lemma {:induction false} SplitCount(s: string, sep: char)
    ensures |Strings.Split(s, sep)| == multiset(s)[sep] + 1
    decreases |s|
  {
    if s != [] {
      SplitCount(s[1..], sep);
      assert s == [s[0]] + s[1..];
    }
  }

  /** Text without a full stop is one sentence, or none when it is blank. */
  lemma {:induction false} SplitNoSep(s: string, sep: char)
    requires sep !in s
    ensures Strings.Split(s, sep) == [s]
    decreases |s|
  {
    if s != [] {
      SplitNoSep(s[1..], sep);
      assert s == [s[0]] + s[1..];
    }
  }

  /** There are at most as many sentences as full stops plus one, and text
      without a full stop is one sentence, or none when it is blank. */
  lemma SentencesBound(text: string)
    ensures Sentences(text) <= multiset(text)['.'] + 1
    ensures '.' !in text ==> Sentences(text) == if Strings.NonBlank(text) then 1 else 0
  {
    SplitCount(text, '.');
    if '.' !in text {
      SplitNoSep(text, '.');
      assert Strings.Split(text, '.')[1..] == [];
    }
  }

  /** Some word is repeated exactly when a word of the list occurs more than
      once, is not a stop word and has more than two characters. */
  lemma RepeatedNonEmpty(words: seq<string>)
    ensures RepeatedWords(words) != [] <==>
      exists w :: w in words && multiset(words)[w] > 1 && w !in StopWords() && |w| > 2
  {
    RepeatedWordsProps(words);
    var r := RepeatedWords(words);
    if r != [] {
      assert r[0] in r;
      assert r[0].word in words && multiset(words)[r[0].word] > 1;
    }
    if exists w :: w in words && multiset(words)[w] > 1 && w !in StopWords() && |w| > 2 {
      var w :| w in words && multiset(words)[w] > 1 && w !in StopWords() && |w| > 2;
      assert WordCount(w, multiset(words)[w]) in r;
    }
  }

  /** `', '.join([f"{word}({count})" for word, count in common_words[:5]])` */
  function Shown(ranked: seq<WordCount>): string {
    Strings.Join(Labels(Top(ranked)), ", ")
  }

  /** The dict `analyze_content_structure` answers, without the number scan,
      for the text and its words `text.lower().split()`. */
  function AnalysisOf(text: string, words: seq<string>): seq<Entry> {
    var stats := [Entry("Total characters", IntV(|text|)), Entry("Sentences", IntV(Sentences(text)))];
    var ranked := RepeatedWords(words);
    if ranked == [] then stats else stats + [Entry("Most repeated words", StrV(Shown(ranked)))]
  }

  /** The keys come in the order they are filled; the character count is the
      text's length and the sentence count the number of non-blank pieces. */
  lemma AnalysisKeys(text: string, words: seq<string>)
    ensures Keys(AnalysisOf(text, words)) ==
      ["Total characters", "Sentences"] + (if RepeatedWords(words) != [] then ["Most repeated words"] else [])
    ensures Get(AnalysisOf(text, words), "Total characters") == Some(IntV(|text|))
    ensures Get(AnalysisOf(text, words), "Sentences") == Some(IntV(Sentences(text)))
  {
    var es := AnalysisOf(text, words);
    assert Keys(es) == seq(|es|, i requires 0 <= i < |es| => es[i].key);
  }

  /** `Most repeated words` is there exactly when some word of the list is
      repeated, not a stop word and longer than two characters; it then shows
      the top of the ranking. */
  lemma AnalysisRepeated(text: string, words: seq<string>)
    ensures HasKey(AnalysisOf(text, words), "Most repeated words") <==>
      exists w :: w in words && multiset(words)[w] > 1 && w !in StopWords() && |w| > 2
    ensures HasKey(AnalysisOf(text, words), "Most repeated words") ==>
      Get(AnalysisOf(text, words), "Most repeated words") == Some(StrV(Shown(RepeatedWords(words))))
  {
    AnalysisRanked(text, words);
    RepeatedNonEmpty(words);
  }

  /** The ranking entry is there exactly when the ranking is not empty. */
  lemma AnalysisRanked(text: string, words: seq<string>)
    ensures HasKey(AnalysisOf(text, words), "Most repeated words") <==> RepeatedWords(words) != []
    ensures RepeatedWords(words) != [] ==>
      Get(AnalysisOf(text, words), "Most repeated words") == Some(StrV(Shown(RepeatedWords(words))))
  {
    var k := "Most repeated words";
    var ranked := RepeatedWords(words);
    var stats := [Entry("Total characters", IntV(|text|)), Entry("Sentences", IntV(Sentences(text)))];
    assert !HasKey(stats, k) by {
      assert Keys(stats) == ["Total characters", "Sentences"];
    }
    if ranked != [] {
      var e := [Entry(k, StrV(Shown(ranked)))];
      assert AnalysisOf(text, words) == stats + e;
      GetAppend(stats, e, k);
      assert Keys(e) == [k];
    } else {
      assert AnalysisOf(text, words) == stats;
    }
  }

  /** `analyze_content_structure(text)` without the number scan, given the
      words `text.lower().split()`: the dict it fills, key by key. */
  method AnalyzeContentStructure(text: string, words: seq<string>) returns (analysis: seq<Entry>)
    ensures analysis == AnalysisOf(text, words)
  {
    analysis := [];
    analysis := analysis + [Entry("Total characters", IntV(|text|))];
    analysis := analysis + [Entry("Sentences", IntV(Sentences(text)))];
    var freq := CountWords(words);
    var commonWords := Common(freq);
    commonWords := SortByCount(commonWords);
    if commonWords != [] {
      analysis := analysis + [Entry("Most repeated words", StrV(Shown(commonWords)))];
    }
  }
}
