/**
 * The transcript indexer: tokenisation and phrase extraction, the inverted
 * word and phrase indexes with their posting lists, the metadata indexes
 * (tags, dates, confidence buckets, sessions, languages), removal and
 * rebuilding, and search with filters, sorting and a limit.
 *
 * The hash maps and hash sets of the indexer are maps and sets here; where
 * the source iterates over one, the model picks its elements in an
 * unspecified order, and the contracts say only what holds for every order.
 */
module TranscriptSearch {
  import opened Common
  import opened TranscriptTypes

  // ---------------------------------------------------------------------
  // Tokenisation
  // ---------------------------------------------------------------------

  /** The alphanumeric characters of a word, in order. */
  function KeepAlnum(s: string): (r: string)
    ensures |r| <= |s|
    ensures forall i :: 0 <= i < |r| ==> IsAlnum(r[i])
  {
    if |s| == 0 then "" else (if IsAlnum(s[0]) then [s[0]] else "") + KeepAlnum(s[1..])
  }

  lemma {:induction false} KeepAlnumAll(s: string)
    requires forall i :: 0 <= i < |s| ==> IsAlnum(s[i])
    ensures KeepAlnum(s) == s
    decreases |s|
  {
    if |s| > 0 {
      KeepAlnumAll(s[1..]);
    }
  }

  lemma {:induction false} KeepAlnumNoUpper(s: string)
    requires NoUpper(s)
    ensures NoUpper(KeepAlnum(s))
    decreases |s|
  {
    if |s| > 0 {
      KeepAlnumNoUpper(s[1..]);
    }
  }

  /** A token: a non-empty run of lowercase letters and digits. */
  predicate IsToken(w: string)
  {
    |w| > 0 && forall i :: 0 <= i < |w| ==> IsAlnum(w[i]) && !IsUpper(w[i])
  }

  /** Each word reduced to its alphanumeric characters, the words left empty dropped. */
  function CleanWords(words: seq<string>): (r: seq<string>)
    ensures |r| <= |words|
    ensures forall k :: 0 <= k < |r| ==> |r[k]| > 0
    ensures forall k, i :: 0 <= k < |r| && 0 <= i < |r[k]| ==> IsAlnum(r[k][i])
  {
    if |words| == 0 then []
    else
      var w := KeepAlnum(words[0]);
      (if |w| > 0 then [w] else []) + CleanWords(words[1..])
  }

  /** `tokenize_text`: lowercase, split on whitespace, keep alphanumerics, drop empty tokens. */
  function Tokenize(text: string): seq<string>
  {
    CleanWords(SplitWhitespace(ToLower(text)))
  }

  lemma {:induction false} CleanWordsNoUpper(words: seq<string>)
    requires forall k, j :: 0 <= k < |words| && 0 <= j < |words[k]| ==> !IsUpper(words[k][j])
    ensures forall k :: 0 <= k < |CleanWords(words)| ==> NoUpper(CleanWords(words)[k])
    decreases |words|
  {
    if |words| > 0 {
      assert NoUpper(words[0]);
      KeepAlnumNoUpper(words[0]);
      CleanWordsNoUpper(words[1..]);
    }
  }

  lemma {:induction false} CleanTokens(words: seq<string>)
    requires forall k :: 0 <= k < |words| ==> IsToken(words[k])
    ensures CleanWords(words) == words
    decreases |words|
  {
    if |words| > 0 {
      KeepAlnumAll(words[0]);
      CleanTokens(words[1..]);
    }
  }

  /** Every token is a non-empty run of lowercase letters and digits. */
  lemma TokenizeShape(text: string)
    ensures forall k :: 0 <= k < |Tokenize(text)| ==> IsToken(Tokenize(text)[k])
  {
    var lowered := ToLower(text);
    ToLowerNoUpper(text);
    SplitWhitespaceChars(lowered, c => !IsUpper(c));
    CleanWordsNoUpper(SplitWhitespace(lowered));
  }

  predicate NotUpper(c: char) { !IsUpper(c) }

  lemma TokensAreWords(words: seq<string>)
    requires forall k :: 0 <= k < |words| ==> IsToken(words[k])
    ensures forall k :: 0 <= k < |words| ==> IsWord(words[k])
  {
    forall k | 0 <= k < |words| ensures IsWord(words[k]) {
      assert IsToken(words[k]);
    }
  }

  lemma JoinTokensNoUpper(words: seq<string>)
    requires forall k :: 0 <= k < |words| ==> IsToken(words[k])
    ensures NoUpper(Join(words, " "))
  {
    JoinChars(words, " ", NotUpper);
    assert forall i :: 0 <= i < |Join(words, " ")| ==> NotUpper(Join(words, " ")[i]);
  }

  /** Tokens joined by single spaces tokenise back to themselves. */
  lemma TokenizeJoin(words: seq<string>)
    requires forall k :: 0 <= k < |words| ==> IsToken(words[k])
    ensures Tokenize(Join(words, " ")) == words
  {
    var joined := Join(words, " ");
    JoinTokensNoUpper(words);
    ToLowerIdentity(joined);
    TokensAreWords(words);
    SplitWhitespaceJoin(words);
    CleanTokens(words);
  }

  // ---------------------------------------------------------------------
  // Phrases
  // ---------------------------------------------------------------------

  /** The `size` consecutive tokens starting at `i`, joined by single spaces. */
  function Phrase(words: seq<string>, i: nat, size: nat): string
    requires i + size <= |words|
  {
    Join(words[i..i + size], " ")
  }

  /** `windows(size)` joined: every window of `size` consecutive tokens, left to right. */
  function WindowsOf(words: seq<string>, size: nat): (r: seq<string>)
    ensures |words| < size ==> r == []
    ensures |words| >= size ==> |r| == |words| - size + 1
    ensures forall i :: 0 <= i < |r| ==> i + size <= |words| && r[i] == Phrase(words, i, size)
  {
    if |words| < size then []
    else seq(|words| - size + 1, i requires 0 <= i < |words| - size + 1 => Phrase(words, i, size))
  }

  /** The windows of every size from `size` to `max`, smaller sizes first. */
  function PhrasesFrom(words: seq<string>, size: nat, max: nat): seq<string>
    decreases max + 1 - size
  {
    if size > max then [] else WindowsOf(words, size) + PhrasesFrom(words, size + 1, max)
  }

  /** A phrase is listed exactly when it is a window of some size in the range. */
  lemma {:induction false} PhrasesMember(words: seq<string>, size: nat, max: nat, p: string)
    ensures p in PhrasesFrom(words, size, max) <==>
      exists k: nat, i: nat :: size <= k <= max && i + k <= |words| && p == Phrase(words, i, k)
    decreases max + 1 - size
  {
    if size <= max {
      PhrasesMember(words, size + 1, max, p);
      var w := WindowsOf(words, size);
      if p in w {
        var i :| 0 <= i < |w| && w[i] == p;
        assert p == Phrase(words, i, size);
      }
      if exists k: nat, i: nat :: size <= k <= max && i + k <= |words| && p == Phrase(words, i, k) {
        var k: nat, i: nat :| size <= k <= max && i + k <= |words| && p == Phrase(words, i, k);
        if k == size {
          assert w[i] == p;
        }
      }
    }
  }

  lemma {:induction false} PhrasesShort(words: seq<string>, size: nat, max: nat)
    requires |words| < size
    ensures PhrasesFrom(words, size, max) == []
    decreases max + 1 - size
  {
    if size <= max {
      PhrasesShort(words, size + 1, max);
    }
  }

  /** With fewer than two tokens, or a maximum below two, there are no phrases. */
  lemma PhrasesNone(words: seq<string>, max: nat)
    requires |words| < 2 || max < 2
    ensures PhrasesFrom(words, 2, max) == []
  {
    if max >= 2 {
      PhrasesShort(words, 2, max);
    }
  }

  /** `extract_phrases`: every window of 2 to `max_phrase_length` tokens, by size then position. */
  method ExtractPhrases(text: string, max_phrase_length: nat) returns (phrases: seq<string>)
    ensures phrases == PhrasesFrom(Tokenize(text), 2, max_phrase_length)
  {
    phrases := PhrasesOfWords(Tokenize(text), max_phrase_length);
  }

  /** The outer loop of `extract_phrases`, over the tokens. */
  method PhrasesOfWords(words: seq<string>, max_phrase_length: nat) returns (phrases: seq<string>)
    ensures phrases == PhrasesFrom(words, 2, max_phrase_length)
  {
    phrases := [];
    var size := 2;
    while size <= max_phrase_length
      invariant 2 <= size
      invariant phrases + PhrasesFrom(words, size, max_phrase_length) == PhrasesFrom(words, 2, max_phrase_length)
      decreases max_phrase_length + 1 - size
    {
      PhrasesStep(phrases, words, size, max_phrase_length);
      phrases := AppendWindows(words, size, phrases);
      size := size + 1;
    }
  }

  /** Taking the windows of the smallest size out of the range. */
  lemma PhrasesStep(done: seq<string>, words: seq<string>, size: nat, max: nat)
    requires size <= max
    ensures done + PhrasesFrom(words, size, max)
            == (done + WindowsOf(words, size)) + PhrasesFrom(words, size + 1, max)
  {
  }

  /** The inner loop of `extract_phrases`: push every window of one size. */
  method AppendWindows(words: seq<string>, size: nat, phrases: seq<string>) returns (r: seq<string>)
    ensures r == phrases + WindowsOf(words, size)
  {
    ghost var windows := WindowsOf(words, size);
    var count := if |words| >= size then |words| - size + 1 else 0;
    r := phrases;
    var i := 0;
    while i < count
      invariant 0 <= i <= count == |windows|
      invariant r == phrases + windows[..i]
    {
      r := r + [Join(words[i..i + size], " ")];
      assert windows[..i + 1] == windows[..i] + [windows[i]];
      i := i + 1;
    }
    assert windows[..count] == windows;
  }

  // ---------------------------------------------------------------------
  // Posting lists
  // ---------------------------------------------------------------------

  /** `TermFrequency` without the context strings. */
  datatype TermFrequency = TermFrequency(frequency: nat, positions: seq<nat>)

  /** `PostingList`. */
  datatype PostingList = PostingList(documents: map<TranscriptId, TermFrequency>, total_frequency: nat)

  /** An inverted index from term to posting list. */
  type TermIndex = map<string, PostingList>

  /** The posting list of a term, empty when the term is not indexed. */
  function PostingOf(index: TermIndex, term: string): PostingList
  {
    if term in index then index[term] else PostingList(map[], 0)
  }

  /** The entry of a document in a posting list, empty when it is absent. */
  function EntryOf(pl: PostingList, id: TranscriptId): TermFrequency
  {
    if id in pl.documents then pl.documents[id] else TermFrequency(0, [])
  }

  /**
   * One occurrence of `term` at `position` in document `id`: the posting
   * list and the document's entry are created when missing, the frequency
   * and the total go up by one and the position is appended.
   */
  function Record(index: TermIndex, term: string, id: TranscriptId, position: nat): (r: TermIndex)
    ensures r.Keys == index.Keys + {term}
  {
    var pl := PostingOf(index, term);
    var tf := EntryOf(pl, id);
    index[term := PostingList(pl.documents[id := TermFrequency(tf.frequency + 1, tf.positions + [position])],
                              pl.total_frequency + 1)]
  }

  /** A token `index_words` indexes: long enough and not a stop word. */
  predicate Qualifies(w: string, min_len: nat, stop: set<string>)
  {
    |w| >= min_len && w !in stop
  }

  /** The positions below `n` at which `terms` holds `t`, in increasing order. */
  function Occurrences(terms: seq<string>, t: string, n: nat): seq<nat>
    requires n <= |terms|
  {
    if n == 0 then [] else Occurrences(terms, t, n - 1) + (if terms[n - 1] == t then [n - 1] else [])
  }

  /** The positions listed are exactly those below `n` holding `t`, each once and in order. */
  lemma {:induction false} OccurrencesSpec(terms: seq<string>, t: string, n: nat)
    requires n <= |terms|
    ensures forall p :: p in Occurrences(terms, t, n) <==> 0 <= p < n && terms[p] == t
    ensures forall i, j :: 0 <= i < j < |Occurrences(terms, t, n)| ==>
      Occurrences(terms, t, n)[i] < Occurrences(terms, t, n)[j]
  {
    if n > 0 {
      OccurrencesSpec(terms, t, n - 1);
      var prev := Occurrences(terms, t, n - 1);
      assert forall i :: 0 <= i < |prev| ==> prev[i] in prev;
    }
  }

  lemma OccurrencesStep(terms: seq<string>, t: string, n: nat)
    requires n < |terms|
    ensures Occurrences(terms, t, n + 1) == Occurrences(terms, t, n) + (if terms[n] == t then [n] else [])
  {
  }

  /** An entry with further positions appended, its frequency counting them. */
  function Appended(tf: TermFrequency, ps: seq<nat>): TermFrequency
  {
    TermFrequency(tf.frequency + |ps|, tf.positions + ps)
  }

  /** The terms present after indexing: those before and every qualifying term that occurs. */
  ghost predicate KeysGrown(before: TermIndex, after: TermIndex, terms: seq<string>, n: nat, min_len: nat,
                            stop: set<string>)
    requires n <= |terms|
  {
    forall t :: t in after <==> t in before || (Qualifies(t, min_len, stop) && |Occurrences(terms, t, n)| > 0)
  }

  /** Terms that do not qualify keep their posting lists. */
  ghost predicate OthersKept(before: TermIndex, after: TermIndex, min_len: nat, stop: set<string>)
  {
    forall t :: !Qualifies(t, min_len, stop) ==> PostingOf(after, t) == PostingOf(before, t)
  }

  /** A qualifying term gains its positions for `id` and its total grows by their number. */
  ghost predicate EntriesGrown(before: TermIndex, after: TermIndex, id: TranscriptId, terms: seq<string>, n: nat,
                               min_len: nat, stop: set<string>)
    requires n <= |terms|
  {
    forall t :: Qualifies(t, min_len, stop) ==>
      PostingOf(after, t).total_frequency == PostingOf(before, t).total_frequency + |Occurrences(terms, t, n)|
      && EntryOf(PostingOf(after, t), id) == Appended(EntryOf(PostingOf(before, t), id), Occurrences(terms, t, n))
      && (id in PostingOf(after, t).documents <==>
            id in PostingOf(before, t).documents || |Occurrences(terms, t, n)| > 0)
  }

  /** Other documents keep their entries. */
  ghost predicate OtherDocsKept(before: TermIndex, after: TermIndex, id: TranscriptId)
  {
    forall t, d :: d != id ==>
      (d in PostingOf(after, t).documents <==> d in PostingOf(before, t).documents)
      && EntryOf(PostingOf(after, t), d) == EntryOf(PostingOf(before, t), d)
  }

  /**
   * How indexing the first `n` terms of document `id` changes `before`
   * into `after`: a qualifying term gains the positions where it occurs,
   * for `id` only, and its total grows by their number; nothing else
   * changes.
   */
  ghost predicate IndexedUpTo(before: TermIndex, after: TermIndex, id: TranscriptId, terms: seq<string>, n: nat,
                              min_len: nat, stop: set<string>)
    requires n <= |terms|
  {
    KeysGrown(before, after, terms, n, min_len, stop) && OthersKept(before, after, min_len, stop)
    && EntriesGrown(before, after, id, terms, n, min_len, stop) && OtherDocsKept(before, after, id)
  }

  /** One step of `index_words`: the token at `n` is recorded when it qualifies. */
  function IndexStep(index: TermIndex, id: TranscriptId, terms: seq<string>, n: nat, min_len: nat,
                     stop: set<string>): TermIndex
    requires n < |terms|
  {
    if Qualifies(terms[n], min_len, stop) then Record(index, terms[n], id, n) else index
  }

  lemma RecordOthers(index: TermIndex, term: string, id: TranscriptId, position: nat)
    ensures forall t :: t != term ==> PostingOf(Record(index, term, id, position), t) == PostingOf(index, t)
    ensures OtherDocsKept(index, Record(index, term, id, position), id)
  {
  }

  lemma RecordEntry(index: TermIndex, term: string, id: TranscriptId, position: nat)
    ensures PostingOf(Record(index, term, id, position), term).total_frequency
            == PostingOf(index, term).total_frequency + 1
    ensures EntryOf(PostingOf(Record(index, term, id, position), term), id)
            == Appended(EntryOf(PostingOf(index, term), id), [position])
    ensures id in PostingOf(Record(index, term, id, position), term).documents
  {
  }

  lemma AppendedTwice(tf: TermFrequency, ps: seq<nat>, q: seq<nat>)
    ensures Appended(Appended(tf, ps), q) == Appended(tf, ps + q)
  {
    assert tf.positions + ps + q == tf.positions + (ps + q);
  }

  lemma StepKeysGrown(before: TermIndex, mid: TermIndex, id: TranscriptId, terms: seq<string>, n: nat,
                      min_len: nat, stop: set<string>)
    requires n < |terms| && KeysGrown(before, mid, terms, n, min_len, stop)
    ensures KeysGrown(before, IndexStep(mid, id, terms, n, min_len, stop), terms, n + 1, min_len, stop)
  {
    var after := IndexStep(mid, id, terms, n, min_len, stop);
    forall t ensures t in after <==> t in before || (Qualifies(t, min_len, stop) && |Occurrences(terms, t, n + 1)| > 0)
    {
      OccurrencesStep(terms, t, n);
    }
  }

  lemma StepEntriesGrown(before: TermIndex, mid: TermIndex, id: TranscriptId, terms: seq<string>, n: nat,
                         min_len: nat, stop: set<string>)
    requires n < |terms| && EntriesGrown(before, mid, id, terms, n, min_len, stop)
    ensures EntriesGrown(before, IndexStep(mid, id, terms, n, min_len, stop), id, terms, n + 1, min_len, stop)
  {
    var after := IndexStep(mid, id, terms, n, min_len, stop);
    forall t | Qualifies(t, min_len, stop)
      ensures PostingOf(after, t).total_frequency
              == PostingOf(before, t).total_frequency + |Occurrences(terms, t, n + 1)|
      ensures EntryOf(PostingOf(after, t), id)
              == Appended(EntryOf(PostingOf(before, t), id), Occurrences(terms, t, n + 1))
      ensures id in PostingOf(after, t).documents <==>
              id in PostingOf(before, t).documents || |Occurrences(terms, t, n + 1)| > 0
    {
      OccurrencesStep(terms, t, n);
      if t == terms[n] {
        RecordEntry(mid, t, id, n);
        AppendedTwice(EntryOf(PostingOf(before, t), id), Occurrences(terms, t, n), [n]);
      } else if Qualifies(terms[n], min_len, stop) {
        RecordOthers(mid, terms[n], id, n);
      }
    }
  }

  lemma IndexStepKeeps(before: TermIndex, mid: TermIndex, id: TranscriptId, terms: seq<string>, n: nat,
                       min_len: nat, stop: set<string>)
    requires n < |terms| && IndexedUpTo(before, mid, id, terms, n, min_len, stop)
    ensures IndexedUpTo(before, IndexStep(mid, id, terms, n, min_len, stop), id, terms, n + 1, min_len, stop)
  {
    StepKeysGrown(before, mid, id, terms, n, min_len, stop);
    StepEntriesGrown(before, mid, id, terms, n, min_len, stop);
    if Qualifies(terms[n], min_len, stop) {
      RecordOthers(mid, terms[n], id, n);
    }
  }

  /** `index_words` (and `index_phrases`, with nothing filtered): index every qualifying term at its position. */
  method IndexTerms(index: TermIndex, id: TranscriptId, terms: seq<string>, min_len: nat, stop: set<string>)
    returns (r: TermIndex)
    ensures IndexedUpTo(index, r, id, terms, |terms|, min_len, stop)
  {
    r := index;
    for position := 0 to |terms|
      invariant IndexedUpTo(index, r, id, terms, position, min_len, stop)
    {
      ghost var mid := r;
      var word := terms[position];
      if |word| >= min_len && word !in stop {
        r := Record(r, word, id, position);
      }
      IndexStepKeeps(index, mid, id, terms, position, min_len, stop);
    }
  }

  /** Every posting list lists some document, and every entry's frequency is its number of positions. */
  predicate Consistent(index: TermIndex)
  {
    (forall t :: t in index ==> index[t].documents.Keys != {})
    && (forall t, d :: t in index && d in index[t].documents ==>
          index[t].documents[d].frequency == |index[t].documents[d].positions|)
  }

  /**
   * Indexing a document that no posting list mentions yet: a term lists it
   * exactly when the term qualifies and occurs; its positions are the ones
   * where the term occurs and its frequency is their number.
   */
  lemma IndexFresh(before: TermIndex, after: TermIndex, id: TranscriptId, terms: seq<string>, min_len: nat,
                   stop: set<string>)
    requires IndexedUpTo(before, after, id, terms, |terms|, min_len, stop)
    requires forall t :: id !in PostingOf(before, t).documents
    ensures forall t :: id in PostingOf(after, t).documents <==> Qualifies(t, min_len, stop) && t in terms
    ensures forall t :: Qualifies(t, min_len, stop) ==>
      EntryOf(PostingOf(after, t), id).positions == Occurrences(terms, t, |terms|)
      && EntryOf(PostingOf(after, t), id).frequency == |Occurrences(terms, t, |terms|)|
  {
    forall t ensures |Occurrences(terms, t, |terms|)| > 0 <==> t in terms {
      OccurrencesSpec(terms, t, |terms|);
      if t in terms {
        var p :| 0 <= p < |terms| && terms[p] == t;
        assert p in Occurrences(terms, t, |terms|);
      }
      var occ := Occurrences(terms, t, |terms|);
      if |occ| > 0 {
        assert occ[0] in occ;
      }
    }
  }

  /** Indexing keeps the index consistent. */
  lemma IndexedConsistent(before: TermIndex, after: TermIndex, id: TranscriptId, terms: seq<string>, n: nat,
                          min_len: nat, stop: set<string>)
    requires n <= |terms| && IndexedUpTo(before, after, id, terms, n, min_len, stop) && Consistent(before)
    ensures Consistent(after)
  {
    forall t | t in after ensures after[t].documents.Keys != {} {
      if t in before {
        var d :| d in before[t].documents;
        if d != id || !Qualifies(t, min_len, stop) {
          assert d in PostingOf(after, t).documents;
        } else {
          assert id in PostingOf(after, t).documents;
        }
      } else {
        assert id in PostingOf(after, t).documents;
      }
    }
    forall t, d | t in after && d in after[t].documents
      ensures after[t].documents[d].frequency == |after[t].documents[d].positions|
    {
      if Qualifies(t, min_len, stop) && d == id {
        assert EntryOf(PostingOf(after, t), id) == Appended(EntryOf(PostingOf(before, t), id), Occurrences(terms, t, n));
      } else if Qualifies(t, min_len, stop) {
        assert EntryOf(PostingOf(after, t), d) == EntryOf(PostingOf(before, t), d);
      } else {
        assert PostingOf(after, t) == PostingOf(before, t);
      }
    }
  }

  /** The sum of the frequencies of a posting list's documents. */
  ghost function SumFrequency(docs: map<TranscriptId, TermFrequency>): nat
    decreases |docs|
  {
    if docs == map[] then 0
    else
      var d :| d in docs;
      docs[d].frequency + SumFrequency(docs - {d})
  }

  /** The sum does not depend on the order in which the documents are taken. */
  lemma {:induction false} SumFrequencyRemove(docs: map<TranscriptId, TermFrequency>, k: TranscriptId)
    requires k in docs
    ensures SumFrequency(docs) == docs[k].frequency + SumFrequency(docs - {k})
    decreases |docs|
  {
    var d :| d in docs && SumFrequency(docs) == docs[d].frequency + SumFrequency(docs - {d});
    if d != k {
      var rest := docs - {d};
      SumFrequencyRemove(rest, k);
      SumFrequencyRemove(docs - {k}, d);
      assert rest - {k} == (docs - {k}) - {d};
    }
  }

  lemma SumFrequencyEntry(docs: map<TranscriptId, TermFrequency>, k: TranscriptId)
    ensures SumFrequency(docs) == EntryOf(PostingList(docs, 0), k).frequency + SumFrequency(docs - {k})
  {
    if k in docs {
      SumFrequencyRemove(docs, k);
    } else {
      assert docs - {k} == docs;
    }
  }

  /** Every total is the sum of its documents' frequencies. */
  ghost predicate TotalsExact(index: TermIndex)
  {
    forall t :: t in index ==> index[t].total_frequency == SumFrequency(index[t].documents)
  }

  /** Indexing keeps every total equal to the sum of its documents' frequencies. */
  lemma IndexedTotals(before: TermIndex, after: TermIndex, id: TranscriptId, terms: seq<string>, n: nat,
                      min_len: nat, stop: set<string>)
    requires n <= |terms| && IndexedUpTo(before, after, id, terms, n, min_len, stop) && TotalsExact(before)
    ensures TotalsExact(after)
  {
    forall t | t in after ensures after[t].total_frequency == SumFrequency(after[t].documents) {
      if Qualifies(t, min_len, stop) {
        var a := PostingOf(after, t).documents;
        var b := PostingOf(before, t).documents;
        assert a - {id} == b - {id} by {
          forall d ensures d in a - {id} <==> d in b - {id} {
          }
          forall d | d in a - {id} ensures (a - {id})[d] == (b - {id})[d] {
            assert EntryOf(PostingOf(after, t), d) == EntryOf(PostingOf(before, t), d);
          }
        }
        SumFrequencyEntry(a, id);
        SumFrequencyEntry(b, id);
        assert EntryOf(PostingList(a, 0), id) == EntryOf(PostingOf(after, t), id);
        assert EntryOf(PostingList(b, 0), id) == EntryOf(PostingOf(before, t), id);
        if t !in before {
          assert b == map[];
        }
      } else {
        assert PostingOf(after, t) == PostingOf(before, t);
      }
    }
  }

  // ---------------------------------------------------------------------
  // Removal from the term indexes
  // ---------------------------------------------------------------------

  /** A posting list without document `id`. */
  function Without(pl: PostingList, id: TranscriptId): PostingList
  {
    pl.(documents := pl.documents - {id})
  }

  /** One removal step: drop `id` from the term's list and the term when its list becomes empty. */
  function Unrecord(index: TermIndex, term: string, id: TranscriptId): TermIndex
  {
    if term in index then
      var pl := Without(index[term], id);
      if pl.documents == map[] then index - {term} else index[term := pl]
    else index
  }

  /**
   * How removing document `id` for the first `n` terms changes `before`
   * into `after`: those terms lose `id`, and a term whose list is left
   * empty disappears; nothing else changes.
   */
  ghost predicate RemovedUpTo(before: TermIndex, after: TermIndex, id: TranscriptId, terms: seq<string>, n: nat)
    requires n <= |terms|
  {
    (forall t :: t in after <==> t in before && (t in terms[..n] ==> Without(before[t], id).documents != map[]))
    && (forall t :: t in after ==> after[t] == if t in terms[..n] then Without(before[t], id) else before[t])
  }

  lemma UnrecordStep(before: TermIndex, mid: TermIndex, id: TranscriptId, terms: seq<string>, n: nat)
    requires n < |terms| && RemovedUpTo(before, mid, id, terms, n)
    ensures RemovedUpTo(before, Unrecord(mid, terms[n], id), id, terms, n + 1)
  {
    assert terms[..n + 1] == terms[..n] + [terms[n]];
    var w := terms[n];
    if w in mid && w in terms[..n] {
      assert Without(mid[w], id) == mid[w];
    }
  }

  /** The word and phrase loops of `remove_transcript`. */
  method RemoveTerms(index: TermIndex, id: TranscriptId, terms: seq<string>) returns (r: TermIndex)
    ensures RemovedUpTo(index, r, id, terms, |terms|)
    ensures Consistent(index) ==> Consistent(r)
  {
    r := index;
    for i := 0 to |terms|
      invariant RemovedUpTo(index, r, id, terms, i)
    {
      ghost var mid := r;
      var word := terms[i];
      if word in r {
        var pl := r[word].(documents := r[word].documents - {id});
        if pl.documents == map[] {
          r := r - {word};
        } else {
          r := r[word := pl];
        }
      }
      UnrecordStep(index, mid, id, terms, i);
    }
    RemovedGone(index, r, id, terms);
  }

  /**
   * After the removal no listed term mentions `id`, other documents keep
   * their entries, totals are left as they were, and the index stays
   * consistent.
   */
  lemma RemovedGone(before: TermIndex, after: TermIndex, id: TranscriptId, terms: seq<string>)
    requires RemovedUpTo(before, after, id, terms, |terms|)
    ensures forall t :: t in terms ==> id !in PostingOf(after, t).documents
    ensures forall t :: t in after ==> after[t].total_frequency == before[t].total_frequency
    ensures OtherDocsKept(before, after, id)
    ensures Consistent(before) ==> Consistent(after)
  {
    assert terms[..|terms|] == terms;
    forall t, d | d != id
      ensures d in PostingOf(after, t).documents <==> d in PostingOf(before, t).documents
      ensures EntryOf(PostingOf(after, t), d) == EntryOf(PostingOf(before, t), d)
    {
      if t in before && t !in after {
        assert t in terms[..|terms|] && Without(before[t], id).documents == map[];
        assert d !in Without(before[t], id).documents;
      }
    }
  }

  // ---------------------------------------------------------------------
  // Metadata indexes
  // ---------------------------------------------------------------------

  /** The documents a metadata index lists under a key, none when the key is absent. */
  function IdsOf<K>(m: map<K, set<TranscriptId>>, k: K): set<TranscriptId>
  {
    if k in m then m[k] else {}
  }

  /** Every key of a metadata index lists some document. */
  predicate NonEmptySets<K>(m: map<K, set<TranscriptId>>)
  {
    forall k :: k in m ==> m[k] != {}
  }

  /** `entry(k).or_insert_with(HashSet::new).insert(id)`. */
  function AddId<K(!new)>(m: map<K, set<TranscriptId>>, k: K, id: TranscriptId): (r: map<K, set<TranscriptId>>)
    ensures r.Keys == m.Keys + {k}
    ensures forall j :: IdsOf(r, j) == IdsOf(m, j) + (if j == k then {id} else {})
    ensures NonEmptySets(m) ==> NonEmptySets(r)
  {
    m[k := IdsOf(m, k) + {id}]
  }

  /** Remove `id` under `k`, and the key when its set becomes empty. */
  function RemoveId<K(!new)>(m: map<K, set<TranscriptId>>, k: K, id: TranscriptId): (r: map<K, set<TranscriptId>>)
    ensures forall j :: IdsOf(r, j) == IdsOf(m, j) - (if j == k then {id} else {})
    ensures forall j :: j in r <==> j in m && (j == k ==> m[k] - {id} != {})
    ensures NonEmptySets(m) ==> NonEmptySets(r)
  {
    if k in m then
      var rest := m[k] - {id};
      if rest == {} then m - {k} else m[k := rest]
    else m
  }

  /** The tag loop of `index_metadata`: `id` is added under every tag. */
  method AddIds(m: map<string, set<TranscriptId>>, keys: seq<string>, id: TranscriptId)
    returns (r: map<string, set<TranscriptId>>)
    ensures forall k :: k in r <==> k in m || k in keys
    ensures forall k :: IdsOf(r, k) == IdsOf(m, k) + (if k in keys then {id} else {})
    ensures NonEmptySets(m) ==> NonEmptySets(r)
  {
    r := m;
    for i := 0 to |keys|
      invariant forall k :: k in r <==> k in m || k in keys[..i]
      invariant forall k :: IdsOf(r, k) == IdsOf(m, k) + (if k in keys[..i] then {id} else {})
      invariant NonEmptySets(m) ==> NonEmptySets(r)
    {
      assert keys[..i + 1] == keys[..i] + [keys[i]];
      r := AddId(r, keys[i], id);
    }
    assert keys[..|keys|] == keys;
  }

  /** The tag loop of `remove_from_metadata_indexes`: `id` is removed under every tag. */
  method RemoveIds(m: map<string, set<TranscriptId>>, keys: seq<string>, id: TranscriptId)
    returns (r: map<string, set<TranscriptId>>)
    ensures forall k :: IdsOf(r, k) == IdsOf(m, k) - (if k in keys then {id} else {})
    ensures forall k :: k in r <==> k in m && (k in keys ==> m[k] - {id} != {})
    ensures NonEmptySets(m) ==> NonEmptySets(r)
  {
    r := m;
    for i := 0 to |keys|
      invariant forall k :: IdsOf(r, k) == IdsOf(m, k) - (if k in keys[..i] then {id} else {})
      invariant forall k :: k in r <==> k in m && (k in keys[..i] ==> m[k] - {id} != {})
      invariant NonEmptySets(m) ==> NonEmptySets(r)
    {
      assert keys[..i + 1] == keys[..i] + [keys[i]];
      assert IdsOf(r, keys[i]) - {id} == IdsOf(m, keys[i]) - {id};
      r := RemoveId(r, keys[i], id);
    }
    assert keys[..|keys|] == keys;
  }

  // ---------------------------------------------------------------------
  // Confidence buckets
  // ---------------------------------------------------------------------

  /** `ConfidenceRange`: a bucket of percentages, start inclusive and end exclusive. */
  datatype ConfidenceRange = ConfidenceRange(start: nat, end: nat)

  /** `(confidence * 100.0) as u8`: truncation toward zero, saturating at 0 and 255. */
  function PercentByte(confidence: real): (p: nat)
    ensures p <= 255
  {
    var x := confidence * 100.0;
    if x <= 0.0 then 0 else if x >= 255.0 then 255 else x.Floor
  }

  /** `get_confidence_range`: the 10-point bucket of the percentage; the end wraps as a `u8` does. */
  function ConfidenceRangeOf(confidence: real): ConfidenceRange
  {
    var start := PercentByte(confidence) / 10 * 10;
    ConfidenceRange(start, (start + 10) % 256)
  }

  /** For a confidence in [0, 1] the bucket starts at a multiple of ten and holds the percentage. */
  lemma ConfidenceRangeBounds(confidence: real)
    requires 0.0 <= confidence <= 1.0
    ensures var r := ConfidenceRangeOf(confidence);
      r.start % 10 == 0 && r.start <= 100 && r.end == r.start + 10
      && r.start as real <= confidence * 100.0 < r.end as real
  {
    var x := confidence * 100.0;
    var p := PercentByte(confidence);
    assert 0.0 <= x <= 100.0;
    assert p as real <= x < p as real + 1.0;
    assert p / 10 * 10 <= p < p / 10 * 10 + 10;
  }

  // ---------------------------------------------------------------------
  // Scoring
  // ---------------------------------------------------------------------

  /** The distinct tokens of a text. */
  function TokenSet(text: string): set<string>
  {
    set w | w in Tokenize(text)
  }

  /** `calculate_fuzzy_similarity`: Jaccard similarity of the token sets, 0 when both are empty. */
  function WordJaccard(query: string, text: string): real
  {
    Jaccard(TokenSet(query), TokenSet(text))
  }

  /** Shared elements over all elements; 0 when both sets are empty. */
  function Jaccard<T>(q: set<T>, t: set<T>): real
  {
    if |q + t| == 0 then 0.0 else |q * t| as real / |q + t| as real
  }

  /** Jaccard lies in [0, 1]; it is 1 for equal non-empty sets and 0 for disjoint ones. */
  lemma JaccardBounds<T>(q: set<T>, t: set<T>)
    ensures 0.0 <= Jaccard(q, t) <= 1.0
    ensures q == t && q != {} ==> Jaccard(q, t) == 1.0
    ensures q * t == {} ==> Jaccard(q, t) == 0.0
  {
    if |q + t| > 0 {
      SubsetCard(q * t, q + t);
      RatioBounds(|q * t|, |q + t|);
      if q == t {
        assert q * t == q && q + t == q;
      }
    }
  }

  /** Word Jaccard lies in [0, 1]; it is 1 for texts with the same non-empty token set and 0 without common tokens. */
  lemma WordJaccardBounds(query: string, text: string)
    ensures 0.0 <= WordJaccard(query, text) <= 1.0
    ensures TokenSet(query) == TokenSet(text) && TokenSet(query) != {} ==> WordJaccard(query, text) == 1.0
    ensures TokenSet(query) * TokenSet(text) == {} ==> WordJaccard(query, text) == 0.0
  {
    JaccardBounds(TokenSet(query), TokenSet(text));
  }

  /**
   * `calculate_tfidf_score`: over the query terms (repeats included), the
   * term frequency in the document times the logarithm of the number of
   * indexed documents over the number of documents listing the term. The
   * logarithm is a parameter.
   */
  function TfIdf(terms: seq<string>, doc: TranscriptId, index: TermIndex, total_documents: nat,
                 ln: real -> real): real
  {
    if |terms| == 0 then 0.0
    else
      var pl := PostingOf(index, terms[0]);
      (if doc in pl.documents
       then pl.documents[doc].frequency as real * ln(total_documents as real / |pl.documents| as real)
       else 0.0)
      + TfIdf(terms[1..], doc, index, total_documents, ln)
  }

  /** A document that no query term's posting list lists scores 0. */
  lemma {:induction false} TfIdfUnmatched(terms: seq<string>, doc: TranscriptId, index: TermIndex,
                                          total_documents: nat, ln: real -> real)
    requires forall k :: 0 <= k < |terms| ==> doc !in PostingOf(index, terms[k]).documents
    ensures TfIdf(terms, doc, index, total_documents, ln) == 0.0
    decreases |terms|
  {
    if |terms| > 0 {
      TfIdfUnmatched(terms[1..], doc, index, total_documents, ln);
    }
  }

  // ---------------------------------------------------------------------
  // Candidates of each search type
  // ---------------------------------------------------------------------

  /** The documents listed under some query term of the word index. */
  function FullTextDocs(index: TermIndex, terms: seq<string>): set<TranscriptId>
  {
    set t, d | t in terms && t in index && d in index[t].documents :: d
  }

  /** The candidate loop of `full_text_search`. */
  method CollectDocs(index: TermIndex, terms: seq<string>) returns (docs: set<TranscriptId>)
    ensures docs == FullTextDocs(index, terms)
  {
    docs := {};
    for i := 0 to |terms|
      invariant docs == FullTextDocs(index, terms[..i])
    {
      assert terms[..i + 1] == terms[..i] + [terms[i]];
      if terms[i] in index {
        docs := docs + index[terms[i]].documents.Keys;
      }
    }
    assert terms[..|terms|] == terms;
  }

  /**
   * The candidate loop of `tag_search` as written: the running set is
   * replaced by the next known tag's set whenever it is empty, so an empty
   * intersection followed by another known tag starts over.
   */
  function TagDocsAsWritten(tag_index: map<string, set<TranscriptId>>, tags: seq<string>, n: nat): set<TranscriptId>
    requires n <= |tags|
  {
    if n == 0 then {}
    else
      var c := TagDocsAsWritten(tag_index, tags, n - 1);
      var t := tags[n - 1];
      if t in tag_index then (if c == {} then tag_index[t] else c * tag_index[t]) else c
  }

  /** Tags "a", "b", "c" naming documents 1, 2 and 3: the code yields {3}, where no document carries all three. */
  lemma TagSearchRestarts(tag_index: map<string, set<TranscriptId>>, tags: seq<string>)
    requires tag_index == map["a" := {1}, "b" := {2}, "c" := {3}] && tags == ["a", "b", "c"]
    ensures TagDocsAsWritten(tag_index, tags, 3) == {3}
    ensures TagDocs(tag_index, tags) == {}
  {
    assert TagDocsAsWritten(tag_index, tags, 1) == {1};
    assert TagDocsAsWritten(tag_index, tags, 2) == {};
    assert 1 !in TagDocs(tag_index, tags) by {
      TagDocsSpec(tag_index, tags);
      assert 1 !in tag_index["b"];
    }
    TagDocsSpec(tag_index, tags);
    forall d ensures d !in TagDocs(tag_index, tags) {
      assert d !in tag_index["a"] || d !in tag_index["b"];
    }
  }

  /** The intersection so far: None until a known tag has been seen. */
  function TagFold(tag_index: map<string, set<TranscriptId>>, tags: seq<string>, n: nat): Option<set<TranscriptId>>
    requires n <= |tags|
  {
    if n == 0 then None
    else
      var c := TagFold(tag_index, tags, n - 1);
      var t := tags[n - 1];
      if t !in tag_index then c
      else if c.None? then Some(tag_index[t])
      else Some(c.value * tag_index[t])
  }

  /** The documents carrying every requested tag the index knows; none when it knows none of them. */
  function TagDocs(tag_index: map<string, set<TranscriptId>>, tags: seq<string>): set<TranscriptId>
  {
    match TagFold(tag_index, tags, |tags|)
    case None => {}
    case Some(c) => c
  }

  lemma {:induction false} TagFoldSpec(tag_index: map<string, set<TranscriptId>>, tags: seq<string>, n: nat)
    requires n <= |tags|
    ensures TagFold(tag_index, tags, n).None? <==> forall k :: 0 <= k < n ==> tags[k] !in tag_index
    ensures TagFold(tag_index, tags, n).Some? ==> forall d ::
      d in TagFold(tag_index, tags, n).value <==> forall k :: 0 <= k < n && tags[k] in tag_index ==> d in tag_index[tags[k]]
  {
    if n > 0 {
      TagFoldSpec(tag_index, tags, n - 1);
    }
  }

  /**
   * A document is a tag-search candidate exactly when some requested tag is
   * known and the document carries every known requested tag.
   */
  lemma TagDocsSpec(tag_index: map<string, set<TranscriptId>>, tags: seq<string>)
    ensures forall d :: d in TagDocs(tag_index, tags) <==>
      (exists t :: t in tags && t in tag_index) && forall t :: t in tags && t in tag_index ==> d in tag_index[t]
  {
    TagFoldSpec(tag_index, tags, |tags|);
    forall d ensures d in TagDocs(tag_index, tags) <==>
      (exists t :: t in tags && t in tag_index) && forall t :: t in tags && t in tag_index ==> d in tag_index[t]
    {
      if exists t :: t in tags && t in tag_index {
        var t :| t in tags && t in tag_index;
        var k :| 0 <= k < |tags| && tags[k] == t;
      }
      if forall k :: 0 <= k < |tags| && tags[k] in tag_index ==> d in tag_index[tags[k]] {
        forall t | t in tags && t in tag_index ensures d in tag_index[t] {
          var k :| 0 <= k < |tags| && tags[k] == t;
        }
      }
    }
  }

  /** While the intersection stays non-empty the code never starts over, so it agrees with the intended fold. */
  lemma {:induction false} TagFoldAsWritten(tag_index: map<string, set<TranscriptId>>, tags: seq<string>, n: nat)
    requires n <= |tags|
    ensures TagFold(tag_index, tags, n).None? ==> TagDocsAsWritten(tag_index, tags, n) == {}
    ensures TagFold(tag_index, tags, n).Some? && TagFold(tag_index, tags, n).value != {} ==>
      TagDocsAsWritten(tag_index, tags, n) == TagFold(tag_index, tags, n).value
  {
    if n > 0 {
      TagFoldAsWritten(tag_index, tags, n - 1);
      var c := TagFold(tag_index, tags, n - 1);
      var t := tags[n - 1];
      if t in tag_index && c.Some? && c.value * tag_index[t] != {} {
        assert c.value != {} by {
          var d :| d in c.value * tag_index[t];
        }
      }
    }
  }

  /**
   * The as-written candidates are the intended ones whenever some document
   * carries every known requested tag; they differ only where the intended
   * answer is empty.
   */
  lemma TagDocsAsWrittenAgrees(tag_index: map<string, set<TranscriptId>>, tags: seq<string>)
    ensures TagDocs(tag_index, tags) != {} ==> TagDocsAsWritten(tag_index, tags, |tags|) == TagDocs(tag_index, tags)
  {
    TagFoldAsWritten(tag_index, tags, |tags|);
  }

  /**
   * `tag_search`'s candidate loop: the running set is intersected with the
   * set of each known tag, and replaced by it while the running set is empty.
   */
  method CollectTagDocs(tag_index: map<string, set<TranscriptId>>, tags: seq<string>) returns (docs: set<TranscriptId>)
    ensures docs == TagDocsAsWritten(tag_index, tags, |tags|)
  {
    docs := {};
    for i := 0 to |tags|
      invariant docs == TagDocsAsWritten(tag_index, tags, i)
    {
      var tag := tags[i];
      if tag in tag_index {
        if docs == {} {
          docs := tag_index[tag];
        } else {
          docs := docs * tag_index[tag];
        }
      }
    }
  }

  // ---------------------------------------------------------------------
  // Results: filters, order, limit
  // ---------------------------------------------------------------------

  /** `ScoredResult` with the match information reduced to its type. */
  datatype ScoredResult = ScoredResult(transcript_id: TranscriptId, score: real, match_type: MatchType)

  /** The filters of `apply_filters` that the criteria set; a set filter rejects a transcript missing from storage. */
  predicate Passes(storage: map<TranscriptId, TranscriptEntry>, c: SearchCriteria, id: TranscriptId)
  {
    (c.date_range.Some? ==>
       id in storage && c.date_range.value.0 <= storage[id].timestamp <= c.date_range.value.1)
    && (c.confidence_range.Some? ==>
          id in storage && c.confidence_range.value.0 <= storage[id].confidence <= c.confidence_range.value.1)
    && (c.session_id.Some? ==> id in storage && storage[id].session_id == c.session_id)
    && (c.language.Some? ==> id in storage && storage[id].language == c.language)
  }

  /** `apply_filters`: `retain` of the results that pass, in their order. */
  function ApplyFilters(results: seq<ScoredResult>, storage: map<TranscriptId, TranscriptEntry>, c: SearchCriteria)
    : (r: seq<ScoredResult>)
    ensures Subseq(r, results)
    ensures forall x :: x in r <==> x in results && Passes(storage, c, x.transcript_id)
  {
    if |results| == 0 then []
    else
      var rest := ApplyFilters(results[1..], storage, c);
      SubseqCons(results[0], rest, results[1..]);
      assert [results[0]] + results[1..] == results;
      if Passes(storage, c, results[0].transcript_id) then [results[0]] + rest else rest
  }

  /** A number squeezed into (0, 1), keeping its order. */
  function Squash(v: real): (r: real)
    ensures 0.0 < r < 1.0
    ensures v >= 0.0 <==> r >= 0.5
  {
    if v >= 0.0 then
      HalfInverse(2.0 * (1.0 + v));
      1.0 - 1.0 / (2.0 * (1.0 + v))
    else
      HalfInverse(2.0 * (1.0 - v));
      1.0 / (2.0 * (1.0 - v))
  }

  lemma HalfInverse(d: real)
    requires d >= 2.0
    ensures 0.0 < 1.0 / d <= 0.5 && (d > 2.0 ==> 1.0 / d < 0.5)
  {
    assert (1.0 / d) * d == 1.0;
  }

  lemma InverseAntitone(x: real, y: real)
    requires 0.0 < x && 0.0 < y
    ensures x <= y <==> 1.0 / x >= 1.0 / y
  {
    assert (1.0 / x) * x == 1.0 && (1.0 / y) * y == 1.0;
    if x <= y {
      assert 1.0 / x - 1.0 / y == (y - x) / (x * y);
    } else {
      assert 1.0 / y - 1.0 / x == (x - y) / (x * y);
    }
  }

  lemma SquashMonotoneNonNegative(a: real, b: real)
    requires a >= 0.0 && b >= 0.0
    ensures a <= b <==> Squash(a) <= Squash(b)
  {
    InverseAntitone(2.0 * (1.0 + a), 2.0 * (1.0 + b));
  }

  lemma SquashMonotoneNegative(a: real, b: real)
    requires a < 0.0 && b < 0.0
    ensures a <= b <==> Squash(a) <= Squash(b)
  {
    InverseAntitone(2.0 * (1.0 - b), 2.0 * (1.0 - a));
  }

  /** Squeezing keeps the order both ways. */
  lemma SquashMonotone(a: real, b: real)
    ensures a <= b <==> Squash(a) <= Squash(b)
  {
    if a >= 0.0 && b >= 0.0 {
      SquashMonotoneNonNegative(a, b);
    } else if a < 0.0 && b < 0.0 {
      SquashMonotoneNegative(a, b);
    }
  }

  /**
   * The order `sort_results` puts results in, as one descending key: the
   * `Option` ordering of the looked-up field (a missing transcript below
   * every present one) becomes a whole-number tier, the field itself the
   * squeezed fraction.
   */
  /** A present value ranks above every missing one, present values by size. */
  function Tiered(present: bool, v: real): real
  {
    if present then 1.0 + Squash(v) else 0.0
  }

  lemma TieredOrder(px: bool, vx: real, py: bool, vy: real)
    ensures Tiered(px, vx) >= Tiered(py, vy) <==> (py ==> px && vx >= vy)
  {
    SquashMonotone(vy, vx);
  }

  /**
   * The order `sort_results` puts results in, as one descending key: the
   * `Option` ordering of the looked-up field (a missing transcript below
   * every present one) becomes a whole-number tier, the field itself the
   * squeezed fraction.
   */
  function SortValue(order: SortOrder, storage: map<TranscriptId, TranscriptEntry>, r: ScoredResult): real
  {
    var present := r.transcript_id in storage;
    match order
    case Relevance => r.score
    case Newest => Tiered(present, if present then storage[r.transcript_id].timestamp as real else 0.0)
    case Oldest => if present then Squash(-(storage[r.transcript_id].timestamp as real)) else 1.0
    case HighestConfidence => Tiered(present, if present then storage[r.transcript_id].confidence else 0.0)
    case Longest => Tiered(present, if present then |storage[r.transcript_id].text| as real else 0.0)
  }

  lemma SortValueOldest(storage: map<TranscriptId, TranscriptEntry>, x: ScoredResult, y: ScoredResult)
    ensures SortValue(Oldest, storage, x) >= SortValue(Oldest, storage, y) <==>
      (x.transcript_id in storage ==>
         y.transcript_id in storage
         && storage[x.transcript_id].timestamp <= storage[y.transcript_id].timestamp)
  {
    if x.transcript_id in storage && y.transcript_id in storage {
      SquashMonotone(-(storage[y.transcript_id].timestamp as real), -(storage[x.transcript_id].timestamp as real));
    }
  }

  /**
   * What "x sorts no later than y" means for each order: higher score;
   * newer (a missing transcript last); older (a missing transcript first);
   * more confident and longer (a missing transcript last).
   */
  lemma SortValueMeaning(storage: map<TranscriptId, TranscriptEntry>, x: ScoredResult, y: ScoredResult)
    ensures SortValue(Relevance, storage, x) >= SortValue(Relevance, storage, y) <==> x.score >= y.score
    ensures SortValue(Newest, storage, x) >= SortValue(Newest, storage, y) <==>
      (y.transcript_id in storage ==>
         x.transcript_id in storage
         && storage[x.transcript_id].timestamp >= storage[y.transcript_id].timestamp)
    ensures SortValue(Oldest, storage, x) >= SortValue(Oldest, storage, y) <==>
      (x.transcript_id in storage ==>
         y.transcript_id in storage
         && storage[x.transcript_id].timestamp <= storage[y.transcript_id].timestamp)
    ensures SortValue(HighestConfidence, storage, x) >= SortValue(HighestConfidence, storage, y) <==>
      (y.transcript_id in storage ==>
         x.transcript_id in storage
         && storage[x.transcript_id].confidence >= storage[y.transcript_id].confidence)
    ensures SortValue(Longest, storage, x) >= SortValue(Longest, storage, y) <==>
      (y.transcript_id in storage ==>
         x.transcript_id in storage
         && |storage[x.transcript_id].text| >= |storage[y.transcript_id].text|)
  {
    var px, py := x.transcript_id in storage, y.transcript_id in storage;
    TieredOrder(px, if px then storage[x.transcript_id].timestamp as real else 0.0,
                py, if py then storage[y.transcript_id].timestamp as real else 0.0);
    TieredOrder(px, if px then storage[x.transcript_id].confidence else 0.0,
                py, if py then storage[y.transcript_id].confidence else 0.0);
    TieredOrder(px, if px then |storage[x.transcript_id].text| as real else 0.0,
                py, if py then |storage[y.transcript_id].text| as real else 0.0);
    SortValueOldest(storage, x, y);
  }

  /** The match a result becomes when its transcript is stored. */
  function AsScored(m: TranscriptMatch): ScoredResult
  {
    ScoredResult(m.transcript.id, m.relevance, m.match_type)
  }

  /** `convert_to_matches`: results whose transcript is stored, with that transcript, in order. */
  function ToMatches(results: seq<ScoredResult>, storage: map<TranscriptId, TranscriptEntry>): (r: seq<TranscriptMatch>)
    ensures |r| <= |results|
  {
    if |results| == 0 then []
    else
      var x := results[0];
      (if x.transcript_id in storage then [TranscriptMatch(storage[x.transcript_id], x.score, x.match_type)] else [])
      + ToMatches(results[1..], storage)
  }

  /** Stored transcripts carry their own id. */
  predicate IdsMatch(storage: map<TranscriptId, TranscriptEntry>)
  {
    forall id :: id in storage ==> storage[id].id == id
  }

  /** Each match comes from a result whose transcript is stored under its id. */
  lemma {:induction false} ToMatchesFrom(results: seq<ScoredResult>, storage: map<TranscriptId, TranscriptEntry>)
    requires IdsMatch(storage)
    ensures forall m :: m in ToMatches(results, storage) ==>
      AsScored(m) in results && m.transcript.id in storage && storage[m.transcript.id] == m.transcript
    decreases |results|
  {
    if |results| > 0 {
      ToMatchesFrom(results[1..], storage);
    }
  }

  /** Conversion keeps the order of sorted results. */
  lemma {:induction false} ToMatchesSorted(results: seq<ScoredResult>, storage: map<TranscriptId, TranscriptEntry>,
                                           order: SortOrder)
    requires IdsMatch(storage)
    requires SortedDesc(results, x => SortValue(order, storage, x))
    ensures forall i, j :: 0 <= i < j < |ToMatches(results, storage)| ==>
      SortValue(order, storage, AsScored(ToMatches(results, storage)[i]))
      >= SortValue(order, storage, AsScored(ToMatches(results, storage)[j]))
    decreases |results|
  {
    if |results| > 0 {
      var rest := ToMatches(results[1..], storage);
      assert SortedDesc(results[1..], x => SortValue(order, storage, x));
      ToMatchesSorted(results[1..], storage, order);
      ToMatchesFrom(results[1..], storage);
      var out := ToMatches(results, storage);
      var x := results[0];
      if x.transcript_id in storage {
        assert out == [TranscriptMatch(storage[x.transcript_id], x.score, x.match_type)] + rest;
        assert AsScored(out[0]) == x;
        forall j | 0 < j < |out|
          ensures SortValue(order, storage, AsScored(out[0])) >= SortValue(order, storage, AsScored(out[j]))
        {
          assert out[j] == rest[j - 1];
          assert out[j] in rest;
          var q :| 0 <= q < |results[1..]| && results[1..][q] == AsScored(out[j]);
          assert results[q + 1] == AsScored(out[j]);
        }
      }
    }
  }

  /** Filter, sort, truncate and convert: what `search` does with the candidates. */
  function Pipeline(results: seq<ScoredResult>, storage: map<TranscriptId, TranscriptEntry>, c: SearchCriteria)
    : seq<TranscriptMatch>
  {
    var kept := ApplyFilters(results, storage, c);
    var sorted := SortDesc(kept, x => SortValue(c.sort_order, storage, x));
    var limited := if c.limit.Some? then Take(sorted, c.limit.value) else sorted;
    ToMatches(limited, storage)
  }

  /**
   * Every match is a stored transcript that came from the candidates and
   * passes the filters; the matches are in the requested order and at most
   * the limit; with no limit, every stored candidate that passes appears.
   */
  lemma PipelineSpec(results: seq<ScoredResult>, storage: map<TranscriptId, TranscriptEntry>, c: SearchCriteria)
    requires IdsMatch(storage)
    ensures forall m :: m in Pipeline(results, storage, c) ==>
      AsScored(m) in results && Passes(storage, c, m.transcript.id)
      && m.transcript.id in storage && storage[m.transcript.id] == m.transcript
    ensures forall i, j :: 0 <= i < j < |Pipeline(results, storage, c)| ==>
      SortValue(c.sort_order, storage, AsScored(Pipeline(results, storage, c)[i]))
      >= SortValue(c.sort_order, storage, AsScored(Pipeline(results, storage, c)[j]))
    ensures c.limit.Some? ==> |Pipeline(results, storage, c)| <= c.limit.value
    ensures c.limit.None? ==> forall x ::
      (x in results && Passes(storage, c, x.transcript_id) && x.transcript_id in storage) ==>
        exists m :: m in Pipeline(results, storage, c) && AsScored(m) == x
  {
    var key := x => SortValue(c.sort_order, storage, x);
    var kept := ApplyFilters(results, storage, c);
    var sorted := SortDesc(kept, key);
    var limited := if c.limit.Some? then Take(sorted, c.limit.value) else sorted;
    SortDescSorted(kept, key);
    assert SortedDesc(limited, key);
    forall x | x in limited ensures x in kept {
      InMultisetMembers(sorted, kept, x);
    }
    ToMatchesFrom(limited, storage);
    ToMatchesSorted(limited, storage, c.sort_order);
    if c.limit.None? {
      forall x | x in results && Passes(storage, c, x.transcript_id) && x.transcript_id in storage
        ensures exists m :: m in Pipeline(results, storage, c) && AsScored(m) == x
      {
        InMultisetMembers(sorted, kept, x);
        ToMatchesHas(limited, storage, x);
      }
    }
  }

  lemma {:induction false} ToMatchesHas(results: seq<ScoredResult>, storage: map<TranscriptId, TranscriptEntry>,
                                        x: ScoredResult)
    requires IdsMatch(storage)
    requires x in results && x.transcript_id in storage
    ensures exists m :: m in ToMatches(results, storage) && AsScored(m) == x
    decreases |results|
  {
    if results[0] == x {
      var m := TranscriptMatch(storage[x.transcript_id], x.score, x.match_type);
      assert ToMatches(results, storage) == [m] + ToMatches(results[1..], storage);
      assert AsScored(m) == x;
    } else {
      ToMatchesHas(results[1..], storage, x);
      var m :| m in ToMatches(results[1..], storage) && AsScored(m) == x;
      assert m in ToMatches(results, storage);
    }
  }

  /** `convert_to_matches`: the loop over the results. */
  method ConvertToMatches(results: seq<ScoredResult>, storage: map<TranscriptId, TranscriptEntry>)
    returns (matches: seq<TranscriptMatch>)
    ensures matches == ToMatches(results, storage)
  {
    matches := [];
    var i := |results|;
    while i > 0
      invariant 0 <= i <= |results|
      invariant matches == ToMatches(results[i..], storage)
    {
      i := i - 1;
      var x := results[i];
      assert results[i..][1..] == results[i + 1..];
      if x.transcript_id in storage {
        matches := [TranscriptMatch(storage[x.transcript_id], x.score, x.match_type)] + matches;
      }
    }
  }

  // ---------------------------------------------------------------------
  // Search
  // ---------------------------------------------------------------------

  /** The query of a search that has one, or "" for a criteria without one. */
  function QueryOf(c: SearchCriteria): string
  {
    if c.query.Some? then c.query.value else ""
  }

  /**
   * A stored transcript that a regular-expression or fuzzy search keeps:
   * the pattern matches somewhere in the text, or the word similarity
   * reaches the threshold. `matches(pattern, text)` is the number of
   * non-overlapping matches of the pattern in the text.
   */
  predicate StoredHit(c: SearchCriteria, matches: (string, string) -> nat, e: TranscriptEntry)
  {
    match c.search_type
    case RegexSearch(p) => matches(p, e.text) > 0
    case Fuzzy(threshold) => WordJaccard(QueryOf(c), e.text) >= threshold
    case _ => false
  }

  /** Regular-expression and fuzzy search scan the storage; the others read an index. */
  predicate ScansStorage(t: SearchType)
  {
    t.RegexSearch? || t.Fuzzy?
  }

  /**
   * The documents a search starts from: those listed under a query token
   * (full text), those listing the query verbatim as a phrase (exact
   * phrase), the stored transcripts the pattern or the similarity keeps,
   * and the tag candidates as the code computes them (`TagDocsAsWritten`).
   */
  function Candidates(ix: Indexes, storage: map<TranscriptId, TranscriptEntry>, c: SearchCriteria,
                      matches: (string, string) -> nat): set<TranscriptId>
  {
    match c.search_type
    case FullText => FullTextDocs(ix.words, Tokenize(QueryOf(c)))
    case ExactPhrase => PostingOf(ix.phrases, QueryOf(c)).documents.Keys
    case Tags => TagDocsAsWritten(ix.tags, c.tags, |c.tags|)
    case _ => set d | d in storage && StoredHit(c, matches, storage[d])
  }

  /**
   * The score and match type of a candidate: the TF-IDF of the query
   * tokens (full text), the phrase frequency (exact phrase), the number of
   * pattern matches (regular expression), the word similarity (fuzzy), or
   * 1 (tags).
   */
  function ScoreOf(ix: Indexes, storage: map<TranscriptId, TranscriptEntry>, total_documents: nat, c: SearchCriteria,
                   ln: real -> real, matches: (string, string) -> nat, d: TranscriptId): (r: ScoredResult)
    ensures r.transcript_id == d
  {
    var text := if d in storage then storage[d].text else "";
    match c.search_type
    case FullText => ScoredResult(d, TfIdf(Tokenize(QueryOf(c)), d, ix.words, total_documents, ln), ExactMatch)
    case ExactPhrase => ScoredResult(d, EntryOf(PostingOf(ix.phrases, QueryOf(c)), d).frequency as real, ExactMatch)
    case RegexSearch(p) => ScoredResult(d, matches(p, text) as real, ExactMatch)
    case Fuzzy(_) => ScoredResult(d, WordJaccard(QueryOf(c), text), FuzzyMatch(WordJaccard(QueryOf(c), text)))
    case Tags => ScoredResult(d, 1.0, TagMatch)
  }

  /** The scored candidates, in the order given. */
  function ScoreAll(ix: Indexes, storage: map<TranscriptId, TranscriptEntry>, total_documents: nat, c: SearchCriteria,
                    ln: real -> real, matches: (string, string) -> nat, order: seq<TranscriptId>)
    : (r: seq<ScoredResult>)
    ensures |r| == |order|
    ensures forall i :: 0 <= i < |order| ==> r[i] == ScoreOf(ix, storage, total_documents, c, ln, matches, order[i])
  {
    if |order| == 0 then []
    else ScoreAll(ix, storage, total_documents, c, ln, matches, order[..|order| - 1])
         + [ScoreOf(ix, storage, total_documents, c, ln, matches, order[|order| - 1])]
  }

  /** What `search` returns for candidates taken in the given order. */
  function SearchOutcome(ix: Indexes, storage: map<TranscriptId, TranscriptEntry>, total_documents: nat,
                         c: SearchCriteria, ln: real -> real, matches: (string, string) -> nat,
                         order: seq<TranscriptId>): Result<seq<TranscriptMatch>, TranscriptError>
  {
    if NeedsQuery(c.search_type) && c.query.None? then Err(SearchError(QueryRequired(c.search_type)))
    else Ok(Pipeline(ScoreAll(ix, storage, total_documents, c, ln, matches, order), storage, c))
  }

  /**
   * A search without a query where one is needed fails with the message
   * of its type. Otherwise every match is a stored candidate that passes
   * the filters, with its candidate score and match type; the matches are
   * in the requested order, at most the limit, and without a limit every
   * stored candidate that passes the filters is matched.
   */
  lemma SearchOutcomeSpec(ix: Indexes, storage: map<TranscriptId, TranscriptEntry>, total_documents: nat,
                          c: SearchCriteria, ln: real -> real, matches: (string, string) -> nat,
                          order: seq<TranscriptId>)
    requires IdsMatch(storage)
    requires IsOrderOf(order, Candidates(ix, storage, c, matches))
    ensures var r := SearchOutcome(ix, storage, total_documents, c, ln, matches, order);
      (r.Err? <==> NeedsQuery(c.search_type) && c.query.None?)
      && (r.Err? ==> r.error == SearchError(QueryRequired(c.search_type)))
    ensures var r := SearchOutcome(ix, storage, total_documents, c, ln, matches, order);
      r.Ok? ==> forall m :: m in r.value ==>
        m.transcript.id in Candidates(ix, storage, c, matches) && Passes(storage, c, m.transcript.id)
        && m.transcript.id in storage && storage[m.transcript.id] == m.transcript
        && AsScored(m) == ScoreOf(ix, storage, total_documents, c, ln, matches, m.transcript.id)
    ensures var r := SearchOutcome(ix, storage, total_documents, c, ln, matches, order);
      r.Ok? ==> forall i, j :: 0 <= i < j < |r.value| ==>
        SortValue(c.sort_order, storage, AsScored(r.value[i])) >= SortValue(c.sort_order, storage, AsScored(r.value[j]))
    ensures var r := SearchOutcome(ix, storage, total_documents, c, ln, matches, order);
      r.Ok? && c.limit.Some? ==> |r.value| <= c.limit.value
    ensures var r := SearchOutcome(ix, storage, total_documents, c, ln, matches, order);
      r.Ok? && c.limit.None? ==> forall d ::
        d in Candidates(ix, storage, c, matches) && d in storage && Passes(storage, c, d) ==>
          exists m :: m in r.value && m.transcript.id == d
  {
    if !(NeedsQuery(c.search_type) && c.query.None?) {
      var results := ScoreAll(ix, storage, total_documents, c, ln, matches, order);
      PipelineSpec(results, storage, c);
      forall m | m in Pipeline(results, storage, c)
        ensures m.transcript.id in Candidates(ix, storage, c, matches)
        ensures AsScored(m) == ScoreOf(ix, storage, total_documents, c, ln, matches, m.transcript.id)
      {
        var i :| 0 <= i < |results| && results[i] == AsScored(m);
        assert results[i].transcript_id == order[i];
      }
      if c.limit.None? {
        forall d | d in Candidates(ix, storage, c, matches) && d in storage && Passes(storage, c, d)
          ensures exists m :: m in Pipeline(results, storage, c) && m.transcript.id == d
        {
          var i :| 0 <= i < |order| && order[i] == d;
          assert results[i] in results;
          var m :| m in Pipeline(results, storage, c) && AsScored(m) == results[i];
        }
      }
    }
  }

  /** The scoring loops of the five searches, over the candidates in order. */
  method ScoreCandidates(ix: Indexes, storage: map<TranscriptId, TranscriptEntry>, total_documents: nat,
                         c: SearchCriteria, ln: real -> real, matches: (string, string) -> nat,
                         order: seq<TranscriptId>) returns (results: seq<ScoredResult>)
    ensures results == ScoreAll(ix, storage, total_documents, c, ln, matches, order)
  {
    results := [];
    for i := 0 to |order|
      invariant results == ScoreAll(ix, storage, total_documents, c, ln, matches, order[..i])
    {
      assert order[..i + 1][..i] == order[..i];
      results := results + [ScoreOf(ix, storage, total_documents, c, ln, matches, order[i])];
    }
    assert order[..|order|] == order;
  }

  /** The scan of `regex_search` and `fuzzy_search`: the stored transcripts they keep, in iteration order. */
  method ScanStorage(storage: map<TranscriptId, TranscriptEntry>, c: SearchCriteria, matches: (string, string) -> nat)
    returns (order: seq<TranscriptId>)
    ensures IsOrderOf(order, set d | d in storage && StoredHit(c, matches, storage[d]))
  {
    var ids := Enumerate(storage.Keys);
    order := [];
    for i := 0 to |ids|
      invariant NoDuplicates(order)
      invariant forall d :: d in order <==> d in ids[..i] && StoredHit(c, matches, storage[d])
    {
      PrefixMembers(ids, i);
      if StoredHit(c, matches, storage[ids[i]]) {
        AppendFresh(order, ids[i]);
        order := order + [ids[i]];
      }
    }
    PrefixMembers(ids, |ids|);
  }

  /** Appending an element not yet present keeps a sequence free of duplicates. */
  lemma AppendFresh<T>(s: seq<T>, x: T)
    requires NoDuplicates(s) && x !in s
    ensures NoDuplicates(s + [x]) && forall y :: y in s + [x] <==> y in s || y == x
  {
  }

  /**
   * `search`: collect and score the candidates of the search type, filter,
   * sort, truncate to the limit and convert; `order` is the iteration
   * order the candidates were taken in.
   */
  method SearchIndexes(ix: Indexes, storage: map<TranscriptId, TranscriptEntry>, total_documents: nat,
                       c: SearchCriteria, ln: real -> real, matches: (string, string) -> nat)
    returns (r: Result<seq<TranscriptMatch>, TranscriptError>, order: seq<TranscriptId>)
    ensures !(NeedsQuery(c.search_type) && c.query.None?) ==> IsOrderOf(order, Candidates(ix, storage, c, matches))
    ensures r == SearchOutcome(ix, storage, total_documents, c, ln, matches, order)
  {
    if NeedsQuery(c.search_type) && c.query.None? {
      return Err(SearchError(QueryRequired(c.search_type))), [];
    }
    match c.search_type {
      case FullText =>
        var docs := CollectDocs(ix.words, Tokenize(c.query.value));
        order := Enumerate(docs);
      case ExactPhrase =>
        var docs := if c.query.value in ix.phrases then ix.phrases[c.query.value].documents.Keys else {};
        order := Enumerate(docs);
      case Tags =>
        var docs := CollectTagDocs(ix.tags, c.tags);
        order := Enumerate(docs);
      case _ =>
        order := ScanStorage(storage, c, matches);
    }
    var results := ScoreCandidates(ix, storage, total_documents, c, ln, matches, order);
    results := ApplyFilters(results, storage, c);
    results := SortDesc(results, x => SortValue(c.sort_order, storage, x));
    if c.limit.Some? {
      results := Take(results, c.limit.value);
    }
    var found := ConvertToMatches(results, storage);
    r := Ok(found);
  }

  // ---------------------------------------------------------------------
  // What the indexes hold
  // ---------------------------------------------------------------------

  /** The two term indexes. */
  datatype TermKind = Words | Phrases

  /** The terms a transcript contributes to an index; none when that index is switched off. */
  function TermsOf(config: IndexConfig, kind: TermKind, e: TranscriptEntry): seq<string>
  {
    match kind
    case Words => if config.enable_word_index then Tokenize(e.text) else []
    case Phrases => if config.enable_phrase_index then PhrasesFrom(Tokenize(e.text), 2, config.max_phrase_length) else []
  }

  /** Words are filtered by length and stop list; phrases are not filtered. */
  function MinLen(config: IndexConfig, kind: TermKind): nat
  {
    if kind == Words then config.min_word_length else 0
  }

  function StopOf(config: IndexConfig, kind: TermKind): set<string>
  {
    if kind == Words then config.stop_words else {}
  }

  /**
   * A term index describes exactly the stored transcripts: a term lists a
   * document when the document is stored and the term qualifies and
   * occurs in it, at the positions where it occurs.
   */
  ghost predicate TermsExact(index: TermIndex, storage: map<TranscriptId, TranscriptEntry>, config: IndexConfig,
                             kind: TermKind)
  {
    forall t, d :: ExactAt(index, storage, config, kind, t, d)
  }

  /** What a term index says about one term and one document. */
  ghost predicate ExactAt(index: TermIndex, storage: map<TranscriptId, TranscriptEntry>, config: IndexConfig,
                          kind: TermKind, t: string, d: TranscriptId)
  {
    (d in PostingOf(index, t).documents <==>
       d in storage && Qualifies(t, MinLen(config, kind), StopOf(config, kind))
       && t in TermsOf(config, kind, storage[d]))
    && (d in storage && Qualifies(t, MinLen(config, kind), StopOf(config, kind)) ==>
          EntryOf(PostingOf(index, t), d).positions
          == Occurrences(TermsOf(config, kind, storage[d]), t, |TermsOf(config, kind, storage[d])|))
  }

  /** Indexing a transcript that is not stored yet keeps the index exact. */
  lemma TermsExactAdd(before: TermIndex, after: TermIndex, storage: map<TranscriptId, TranscriptEntry>,
                      e: TranscriptEntry, config: IndexConfig, kind: TermKind)
    requires TermsExact(before, storage, config, kind) && e.id !in storage
    requires IndexedUpTo(before, after, e.id, TermsOf(config, kind, e), |TermsOf(config, kind, e)|,
                         MinLen(config, kind), StopOf(config, kind))
    ensures TermsExact(after, storage[e.id := e], config, kind)
  {
    var terms, min_len, stop := TermsOf(config, kind, e), MinLen(config, kind), StopOf(config, kind);
    forall t ensures e.id !in PostingOf(before, t).documents {
      assert ExactAt(before, storage, config, kind, t, e.id);
    }
    IndexFresh(before, after, e.id, terms, min_len, stop);
    var storage' := storage[e.id := e];
    forall t, d ensures ExactAt(after, storage', config, kind, t, d) {
      assert ExactAt(before, storage, config, kind, t, d);
      if d != e.id {
        assert d in PostingOf(after, t).documents <==> d in PostingOf(before, t).documents;
        assert EntryOf(PostingOf(after, t), d) == EntryOf(PostingOf(before, t), d);
      }
    }
  }

  /** Removing a stored transcript under all of its terms keeps the index exact. */
  lemma TermsExactRemove(before: TermIndex, after: TermIndex, storage: map<TranscriptId, TranscriptEntry>,
                         id: TranscriptId, terms: seq<string>, config: IndexConfig, kind: TermKind)
    requires TermsExact(before, storage, config, kind) && id in storage
    requires forall w :: w in TermsOf(config, kind, storage[id]) ==> w in terms
    requires RemovedUpTo(before, after, id, terms, |terms|)
    ensures TermsExact(after, storage - {id}, config, kind)
  {
    RemovedGone(before, after, id, terms);
    assert terms[..|terms|] == terms;
    forall t, d ensures ExactAt(after, storage - {id}, config, kind, t, d) {
      assert ExactAt(before, storage, config, kind, t, d);
      if t !in terms {
        assert PostingOf(after, t) == PostingOf(before, t);
      }
    }
  }

  /** Nothing to index leaves an index as it is. */
  lemma IndexedNothing(index: TermIndex, id: TranscriptId, min_len: nat, stop: set<string>)
    ensures IndexedUpTo(index, index, id, [], 0, min_len, stop)
  {
    forall t ensures EntryOf(PostingOf(index, t), id) == Appended(EntryOf(PostingOf(index, t), id), []) {
      assert EntryOf(PostingOf(index, t), id).positions + [] == EntryOf(PostingOf(index, t), id).positions;
    }
  }

  /** A metadata index lists exactly the stored transcripts under their keys. */
  ghost predicate MetaExact<K(!new)>(m: map<K, set<TranscriptId>>, storage: map<TranscriptId, TranscriptEntry>,
                                     keysOf: TranscriptEntry -> set<K>)
  {
    forall k, d :: d in IdsOf(m, k) <==> d in storage && k in keysOf(storage[d])
  }

  lemma MetaExactAdd<K(!new)>(m: map<K, set<TranscriptId>>, m2: map<K, set<TranscriptId>>,
                              storage: map<TranscriptId, TranscriptEntry>, keysOf: TranscriptEntry -> set<K>,
                              e: TranscriptEntry)
    requires MetaExact(m, storage, keysOf) && e.id !in storage
    requires forall k :: IdsOf(m2, k) == IdsOf(m, k) + (if k in keysOf(e) then {e.id} else {})
    ensures MetaExact(m2, storage[e.id := e], keysOf)
  {
  }

  lemma MetaExactRemove<K(!new)>(m: map<K, set<TranscriptId>>, m2: map<K, set<TranscriptId>>,
                                 storage: map<TranscriptId, TranscriptEntry>, keysOf: TranscriptEntry -> set<K>,
                                 id: TranscriptId)
    requires MetaExact(m, storage, keysOf) && id in storage
    requires forall k :: IdsOf(m2, k) == IdsOf(m, k) - (if k in keysOf(storage[id]) then {id} else {})
    ensures MetaExact(m2, storage - {id}, keysOf)
  {
  }

  /** Empty indexes describe an empty storage exactly. */
  lemma EmptyExact(config: IndexConfig)
    ensures TermsExact(map[], map[], config, Words) && TermsExact(map[], map[], config, Phrases)
    ensures MetaExact(map[], map[], TagKeys) && MetaExact(map[], map[], DateKeys)
    ensures MetaExact(map[], map[], ConfidenceKeys) && MetaExact(map[], map[], SessionKeys)
    ensures MetaExact(map[], map[], LanguageKeys)
  {
  }

  /** The keys `index_metadata` files a transcript under, index by index. */
  function TagKeys(e: TranscriptEntry): set<string> { set t | t in e.tags }
  function DateKeys(e: TranscriptEntry): set<int> { {DateOf(e.timestamp)} }
  function ConfidenceKeys(e: TranscriptEntry): set<ConfidenceRange> { {ConfidenceRangeOf(e.confidence)} }
  function SessionKeys(e: TranscriptEntry): set<SessionId>
  {
    if e.session_id.Some? then {e.session_id.value} else {}
  }
  function LanguageKeys(e: TranscriptEntry): set<string>
  {
    if e.language.Some? then {e.language.value} else {}
  }

  // ---------------------------------------------------------------------
  // Search criteria
  // ---------------------------------------------------------------------

  /** Full-text, phrase and fuzzy search need a query. */
  predicate NeedsQuery(t: SearchType)
  {
    t.FullText? || t.ExactPhrase? || t.Fuzzy?
  }

  /** The error message of a search that needs a query and has none. */
  function QueryRequired(t: SearchType): string
  {
    match t
    case FullText => "Query required for full-text search"
    case ExactPhrase => "Query required for phrase search"
    case _ => "Query required for fuzzy search"
  }

  /**
   * `TranscriptIndexer`: the word and phrase posting lists, the metadata
   * indexes, a copy of every indexed transcript and the document count.
   * Session keys are the session ids themselves rather than their text.
   */
  class TranscriptIndexer {
    const config: IndexConfig
    var word_index: TermIndex
    var phrase_index: TermIndex
    var tag_index: map<string, set<TranscriptId>>
    var date_index: map<int, set<TranscriptId>>
    var confidence_index: map<ConfidenceRange, set<TranscriptId>>
    var session_index: map<SessionId, set<TranscriptId>>
    var language_index: map<string, set<TranscriptId>>
    var transcript_storage: map<TranscriptId, TranscriptEntry>
    /** `stats.total_documents`. */
    var total_documents: nat

    /**
     * No posting list or metadata set is empty, entries count their
     * positions, transcripts are stored under their own ids, and the
     * document count is at least the number stored (indexing an id again
     * counts it again).
     */
    predicate Valid()
      reads this
    {
      IndexesValid(AllIndexes()) && IdsMatch(transcript_storage) && |transcript_storage| <= total_documents
    }

    /** Every index describes exactly the stored transcripts. */
    ghost predicate Exact()
      reads this
    {
      IndexesExact(AllIndexes(), transcript_storage, config)
    }

    /** `new`: every index empty, no documents. */
    constructor (config: IndexConfig)
      ensures Valid() && Exact()
      ensures this.config == config && total_documents == 0 && transcript_storage == map[]
      ensures word_index == map[] && phrase_index == map[] && tag_index == map[] && date_index == map[]
      ensures confidence_index == map[] && session_index == map[] && language_index == map[]
    {
      this.config := config;
      word_index := map[];
      phrase_index := map[];
      tag_index := map[];
      date_index := map[];
      confidence_index := map[];
      session_index := map[];
      language_index := map[];
      transcript_storage := map[];
      total_documents := 0;
      EmptyExact(config);
    }

    /**
     * `index_transcript`: store the transcript, index its words and phrases
     * when those indexes are on, file it under its metadata and count it.
     * A transcript that was not stored yet keeps every index exact.
     */
    method IndexTranscript(t: TranscriptEntry)
      requires Valid()
      modifies this
      ensures Valid()
      ensures transcript_storage == old(transcript_storage)[t.id := t]
      ensures total_documents == old(total_documents) + 1
      ensures IndexesAdded(old(AllIndexes()), AllIndexes(), t, config)
      ensures old(Exact()) && t.id !in old(transcript_storage) ==> Exact()
    {
      ghost var exact := Exact() && t.id !in transcript_storage;
      ghost var before, storage0 := AllIndexes(), transcript_storage;
      var after := AddToIndexes(AllIndexes(), t, config);
      if exact {
        AdditionKeepsExact(before, after, storage0, t, config);
      }
      SetIndexes(after);
      Store(t);
    }

    /** The storage and count part of `index_transcript`. */
    method Store(t: TranscriptEntry)
      requires IdsMatch(transcript_storage) && |transcript_storage| <= total_documents
      modifies this`transcript_storage, this`total_documents
      ensures transcript_storage == old(transcript_storage)[t.id := t] && total_documents == old(total_documents) + 1
      ensures IdsMatch(transcript_storage) && |transcript_storage| <= total_documents
    {
      transcript_storage := transcript_storage[t.id := t];
      total_documents := total_documents + 1;
    }

    /** Replace the seven indexes. */
    method SetIndexes(ix: Indexes)
      modifies this`word_index, this`phrase_index, this`tag_index, this`date_index, this`confidence_index
      modifies this`session_index, this`language_index
      ensures AllIndexes() == ix
    {
      word_index, phrase_index, tag_index := ix.words, ix.phrases, ix.tags;
      date_index, confidence_index := ix.dates, ix.confidences;
      session_index, language_index := ix.sessions, ix.languages;
    }

    /** The seven indexes as one value. */
    function AllIndexes(): Indexes
      reads this
    {
      Indexes(word_index, phrase_index, tag_index, date_index, confidence_index, session_index, language_index)
    }

    /**
     * `remove_transcript`: nothing happens for an id that is not stored.
     * Otherwise the transcript leaves storage, every index loses it, and
     * the count goes down by one; the count never underflows, and exact
     * indexes stay exact.
     */
    method RemoveTranscript(id: TranscriptId)
      requires Valid()
      modifies this
      ensures Valid()
      ensures id !in old(transcript_storage) ==> unchanged(this)
      ensures id in old(transcript_storage) ==>
        transcript_storage == old(transcript_storage) - {id} && total_documents == old(total_documents) - 1
        && IndexesRemoved(old(AllIndexes()), AllIndexes(), old(transcript_storage)[id], config.max_phrase_length)
      ensures old(Exact()) ==> Exact()
    {
      if id in transcript_storage {
        var t := transcript_storage[id];
        MapRemoveCard(transcript_storage, id);
        var after := RemoveFromIndexes(AllIndexes(), t, config.max_phrase_length);
        if Exact() {
          RemovalKeepsExact(AllIndexes(), after, transcript_storage, t, config);
        }
        SetIndexes(after);
        transcript_storage := transcript_storage - {id};
        total_documents := total_documents - 1;
      }
    }

    /**
     * `rebuild_index`: clear every index and the storage, reset the count,
     * and index every stored transcript again, in the storage's iteration
     * order. Afterwards the storage is what it was, the count is its size
     * and every index describes exactly the stored transcripts.
     */
    method RebuildIndex()
      requires Valid()
      modifies this
      ensures Valid() && Exact()
      ensures transcript_storage == old(transcript_storage)
      ensures total_documents == |transcript_storage|
    {
      var ids := Enumerate(transcript_storage.Keys);
      var ix, storage, total := IndexAll(transcript_storage, ids, config);
      SetIndexes(ix);
      transcript_storage, total_documents := storage, total;
    }

    /**
     * `search` over the indexer's state; `ln` is the natural logarithm of
     * the TF-IDF score and `matches` counts a pattern's matches in a text.
     */
    method Search(c: SearchCriteria, ln: real -> real, matches: (string, string) -> nat)
      returns (r: Result<seq<TranscriptMatch>, TranscriptError>, order: seq<TranscriptId>)
      ensures !(NeedsQuery(c.search_type) && c.query.None?) ==>
        IsOrderOf(order, Candidates(AllIndexes(), transcript_storage, c, matches))
      ensures r == SearchOutcome(AllIndexes(), transcript_storage, total_documents, c, ln, matches, order)
    {
      r, order := SearchIndexes(AllIndexes(), transcript_storage, total_documents, c, ln, matches);
    }
  }

  /** `remove_from_metadata_indexes`: the transcript leaves the entries of its tags, date, bucket, session and language. */
  method RemoveFromMetadata(t: TranscriptEntry, tags: map<string, set<TranscriptId>>, dates: map<int, set<TranscriptId>>,
                            confidences: map<ConfidenceRange, set<TranscriptId>>,
                            sessions: map<SessionId, set<TranscriptId>>, languages: map<string, set<TranscriptId>>)
    returns (tags': map<string, set<TranscriptId>>, dates': map<int, set<TranscriptId>>,
             confidences': map<ConfidenceRange, set<TranscriptId>>, sessions': map<SessionId, set<TranscriptId>>,
             languages': map<string, set<TranscriptId>>)
    requires NonEmptySets(tags) && NonEmptySets(dates) && NonEmptySets(confidences)
    requires NonEmptySets(sessions) && NonEmptySets(languages)
    ensures NonEmptySets(tags') && NonEmptySets(dates') && NonEmptySets(confidences')
    ensures NonEmptySets(sessions') && NonEmptySets(languages')
    ensures TagsRemoved(tags, tags', t.tags, t.id)
    ensures dates' == RemoveId(dates, DateOf(t.timestamp), t.id)
    ensures confidences' == RemoveId(confidences, ConfidenceRangeOf(t.confidence), t.id)
    ensures sessions' == if t.session_id.Some? then RemoveId(sessions, t.session_id.value, t.id) else sessions
    ensures languages' == if t.language.Some? then RemoveId(languages, t.language.value, t.id) else languages
  {
    tags' := RemoveIds(tags, t.tags, t.id);
    dates' := RemoveId(dates, DateOf(t.timestamp), t.id);
    confidences' := RemoveId(confidences, ConfidenceRangeOf(t.confidence), t.id);
    sessions', languages' := sessions, languages;
    if t.session_id.Some? {
      sessions' := RemoveId(sessions, t.session_id.value, t.id);
    }
    if t.language.Some? {
      languages' := RemoveId(languages, t.language.value, t.id);
    }
  }

  /** The seven indexes of a `TranscriptIndexer`, as one value. */
  datatype Indexes = Indexes(
    words: TermIndex, phrases: TermIndex, tags: map<string, set<TranscriptId>>, dates: map<int, set<TranscriptId>>,
    confidences: map<ConfidenceRange, set<TranscriptId>>, sessions: map<SessionId, set<TranscriptId>>,
    languages: map<string, set<TranscriptId>>)

  /** Posting lists keep their counts, and no index keeps an empty entry. */
  predicate IndexesValid(ix: Indexes)
  {
    Consistent(ix.words) && Consistent(ix.phrases)
    && NonEmptySets(ix.tags) && NonEmptySets(ix.dates) && NonEmptySets(ix.confidences)
    && NonEmptySets(ix.sessions) && NonEmptySets(ix.languages)
  }

  /** Every index describes exactly the transcripts in `storage`. */
  ghost predicate IndexesExact(ix: Indexes, storage: map<TranscriptId, TranscriptEntry>, config: IndexConfig)
  {
    TermsExact(ix.words, storage, config, Words) && TermsExact(ix.phrases, storage, config, Phrases)
    && MetaExact(ix.tags, storage, TagKeys) && MetaExact(ix.dates, storage, DateKeys)
    && MetaExact(ix.confidences, storage, ConfidenceKeys) && MetaExact(ix.sessions, storage, SessionKeys)
    && MetaExact(ix.languages, storage, LanguageKeys)
  }

  /**
   * What indexing transcript `t` does to the indexes: each qualifying word
   * and, when those indexes are on, each phrase gains the transcript at
   * its positions, and the transcript joins the entries of its tags,
   * date, confidence bucket, session and language.
   */
  ghost predicate IndexesAdded(before: Indexes, after: Indexes, t: TranscriptEntry, config: IndexConfig)
  {
    var words := TermsOf(config, Words, t);
    var phrases := TermsOf(config, Phrases, t);
    IndexedUpTo(before.words, after.words, t.id, words, |words|, config.min_word_length, config.stop_words)
    && IndexedUpTo(before.phrases, after.phrases, t.id, phrases, |phrases|, 0, {})
    && (forall k :: k in after.tags <==> k in before.tags || k in t.tags)
    && (forall k :: IdsOf(after.tags, k) == IdsOf(before.tags, k) + (if k in t.tags then {t.id} else {}))
    && after.dates == AddId(before.dates, DateOf(t.timestamp), t.id)
    && after.confidences == AddId(before.confidences, ConfidenceRangeOf(t.confidence), t.id)
    && after.sessions == (if t.session_id.Some? then AddId(before.sessions, t.session_id.value, t.id)
                          else before.sessions)
    && after.languages == (if t.language.Some? then AddId(before.languages, t.language.value, t.id)
                           else before.languages)
  }

  /** `index_words` or `index_phrases` when that index is on; nothing otherwise. */
  method IndexTermsOf(index: TermIndex, t: TranscriptEntry, config: IndexConfig, kind: TermKind) returns (r: TermIndex)
    requires Consistent(index)
    ensures Consistent(r)
    ensures IndexedUpTo(index, r, t.id, TermsOf(config, kind, t), |TermsOf(config, kind, t)|,
                        MinLen(config, kind), StopOf(config, kind))
  {
    var terms: seq<string> := [];
    if kind == Words && config.enable_word_index {
      terms := Tokenize(t.text);
    } else if kind == Phrases && config.enable_phrase_index {
      terms := ExtractPhrases(t.text, config.max_phrase_length);
    }
    assert terms == TermsOf(config, kind, t);
    if terms == [] {
      r := index;
      IndexedNothing(index, t.id, MinLen(config, kind), StopOf(config, kind));
    } else {
      r := IndexTerms(index, t.id, terms, MinLen(config, kind), StopOf(config, kind));
    }
    IndexedConsistent(index, r, t.id, terms, |terms|, MinLen(config, kind), StopOf(config, kind));
  }

  /** `index_transcript` on the indexes: its words, phrases and metadata. */
  method AddToIndexes(ix: Indexes, t: TranscriptEntry, config: IndexConfig) returns (r: Indexes)
    requires IndexesValid(ix)
    ensures IndexesValid(r) && IndexesAdded(ix, r, t, config)
  {
    var words' := IndexTermsOf(ix.words, t, config, Words);
    var phrases' := IndexTermsOf(ix.phrases, t, config, Phrases);
    var tags', dates', confidences', sessions', languages' :=
      AddToMetadata(t, ix.tags, ix.dates, ix.confidences, ix.sessions, ix.languages);
    r := Indexes(words', phrases', tags', dates', confidences', sessions', languages');
  }

  /** `index_metadata`: the transcript joins the entries of its tags, date, bucket, session and language. */
  method AddToMetadata(t: TranscriptEntry, tags: map<string, set<TranscriptId>>, dates: map<int, set<TranscriptId>>,
                       confidences: map<ConfidenceRange, set<TranscriptId>>,
                       sessions: map<SessionId, set<TranscriptId>>, languages: map<string, set<TranscriptId>>)
    returns (tags': map<string, set<TranscriptId>>, dates': map<int, set<TranscriptId>>,
             confidences': map<ConfidenceRange, set<TranscriptId>>, sessions': map<SessionId, set<TranscriptId>>,
             languages': map<string, set<TranscriptId>>)
    requires NonEmptySets(tags) && NonEmptySets(dates) && NonEmptySets(confidences)
    requires NonEmptySets(sessions) && NonEmptySets(languages)
    ensures NonEmptySets(tags') && NonEmptySets(dates') && NonEmptySets(confidences')
    ensures NonEmptySets(sessions') && NonEmptySets(languages')
    ensures forall k :: k in tags' <==> k in tags || k in t.tags
    ensures forall k :: IdsOf(tags', k) == IdsOf(tags, k) + (if k in t.tags then {t.id} else {})
    ensures dates' == AddId(dates, DateOf(t.timestamp), t.id)
    ensures confidences' == AddId(confidences, ConfidenceRangeOf(t.confidence), t.id)
    ensures sessions' == if t.session_id.Some? then AddId(sessions, t.session_id.value, t.id) else sessions
    ensures languages' == if t.language.Some? then AddId(languages, t.language.value, t.id) else languages
  {
    tags' := AddIds(tags, t.tags, t.id);
    dates' := AddId(dates, DateOf(t.timestamp), t.id);
    confidences' := AddId(confidences, ConfidenceRangeOf(t.confidence), t.id);
    sessions', languages' := sessions, languages;
    if t.session_id.Some? {
      sessions' := AddId(sessions, t.session_id.value, t.id);
    }
    if t.language.Some? {
      languages' := AddId(languages, t.language.value, t.id);
    }
  }

  /** Indexing a transcript that is not stored yet keeps exact indexes exact. */
  lemma AdditionKeepsExact(before: Indexes, after: Indexes, storage: map<TranscriptId, TranscriptEntry>,
                           t: TranscriptEntry, config: IndexConfig)
    requires t.id !in storage
    requires IndexesExact(before, storage, config) && IndexesAdded(before, after, t, config)
    ensures IndexesExact(after, storage[t.id := t], config)
  {
    TermsExactAdd(before.words, after.words, storage, t, config, Words);
    TermsExactAdd(before.phrases, after.phrases, storage, t, config, Phrases);
    MetaAdditionKeepsExact(before, after, storage, t);
  }

  /** The metadata part of `AdditionKeepsExact`. */
  lemma MetaAdditionKeepsExact(before: Indexes, after: Indexes, storage: map<TranscriptId, TranscriptEntry>,
                               t: TranscriptEntry)
    requires t.id !in storage
    requires MetaExact(before.tags, storage, TagKeys) && MetaExact(before.dates, storage, DateKeys)
    requires MetaExact(before.confidences, storage, ConfidenceKeys) && MetaExact(before.sessions, storage, SessionKeys)
    requires MetaExact(before.languages, storage, LanguageKeys)
    requires forall k :: IdsOf(after.tags, k) == IdsOf(before.tags, k) + (if k in t.tags then {t.id} else {})
    requires after.dates == AddId(before.dates, DateOf(t.timestamp), t.id)
    requires after.confidences == AddId(before.confidences, ConfidenceRangeOf(t.confidence), t.id)
    requires after.sessions == (if t.session_id.Some? then AddId(before.sessions, t.session_id.value, t.id)
                                else before.sessions)
    requires after.languages == (if t.language.Some? then AddId(before.languages, t.language.value, t.id)
                                 else before.languages)
    ensures MetaExact(after.tags, storage[t.id := t], TagKeys) && MetaExact(after.dates, storage[t.id := t], DateKeys)
    ensures MetaExact(after.confidences, storage[t.id := t], ConfidenceKeys)
    ensures MetaExact(after.sessions, storage[t.id := t], SessionKeys)
    ensures MetaExact(after.languages, storage[t.id := t], LanguageKeys)
  {
    MetaExactAdd(before.tags, after.tags, storage, TagKeys, t);
    MetaExactAdd(before.dates, after.dates, storage, DateKeys, t);
    MetaExactAdd(before.confidences, after.confidences, storage, ConfidenceKeys, t);
    MetaExactAdd(before.sessions, after.sessions, storage, SessionKeys, t);
    MetaExactAdd(before.languages, after.languages, storage, LanguageKeys, t);
  }

  /**
   * The loop of `rebuild_index`, from empty indexes: index every
   * transcript of `all` in the order `ids` lists them. The result stores
   * exactly `all`, counts each of its transcripts once and describes it
   * exactly.
   */
  method IndexAll(all: map<TranscriptId, TranscriptEntry>, ids: seq<TranscriptId>, config: IndexConfig)
    returns (ix: Indexes, storage: map<TranscriptId, TranscriptEntry>, total: nat)
    requires IdsMatch(all) && NoDuplicates(ids) && forall d :: d in ids <==> d in all
    ensures IndexesValid(ix) && IndexesExact(ix, all, config)
    ensures storage == all && total == |all|
  {
    ix := Indexes(map[], map[], map[], map[], map[], map[], map[]);
    storage, total := map[], 0;
    EmptyExact(config);
    for i := 0 to |ids|
      invariant IndexesValid(ix) && IndexesExact(ix, storage, config)
      invariant StoredPrefix(storage, all, ids, i) && total == |storage|
    {
      StoredPrefixStep(storage, all, ids, i);
      var t := all[ids[i]];
      ix := AddExactly(ix, storage, t, config);
      storage, total := storage[t.id := t], total + 1;
    }
    StoredPrefixAll(storage, all, ids);
  }

  /** `storage` holds the transcripts of `all` listed in the first `n` places of `ids`. */
  ghost predicate StoredPrefix(storage: map<TranscriptId, TranscriptEntry>, all: map<TranscriptId, TranscriptEntry>,
                               ids: seq<TranscriptId>, n: nat)
    requires n <= |ids|
  {
    (forall d :: d in storage <==> d in ids[..n]) && forall d :: d in storage ==> d in all && storage[d] == all[d]
  }

  lemma StoredPrefixStep(storage: map<TranscriptId, TranscriptEntry>, all: map<TranscriptId, TranscriptEntry>,
                         ids: seq<TranscriptId>, n: nat)
    requires n < |ids| && StoredPrefix(storage, all, ids, n)
    requires IdsMatch(all) && NoDuplicates(ids) && forall d :: d in ids <==> d in all
    ensures ids[n] in all && all[ids[n]].id == ids[n] && ids[n] !in storage
    ensures StoredPrefix(storage[ids[n] := all[ids[n]]], all, ids, n + 1)
    ensures |storage[ids[n] := all[ids[n]]]| == |storage| + 1
  {
    PrefixMembers(ids, n);
  }

  lemma StoredPrefixAll(storage: map<TranscriptId, TranscriptEntry>, all: map<TranscriptId, TranscriptEntry>,
                        ids: seq<TranscriptId>)
    requires StoredPrefix(storage, all, ids, |ids|) && forall d :: d in ids <==> d in all
    ensures storage == all
  {
    PrefixMembers(ids, |ids|);
    MapsEqual(storage, all);
  }

  /** One step of the `rebuild_index` loop: a transcript not stored yet keeps exact indexes exact. */
  method AddExactly(ix: Indexes, storage: map<TranscriptId, TranscriptEntry>, t: TranscriptEntry, config: IndexConfig)
    returns (r: Indexes)
    requires IndexesValid(ix) && IndexesExact(ix, storage, config) && t.id !in storage
    ensures IndexesValid(r) && IndexesExact(r, storage[t.id := t], config)
  {
    r := AddToIndexes(ix, t, config);
    AdditionKeepsExact(ix, r, storage, t, config);
  }

  /** The elements of a longer prefix. */
  lemma PrefixMembers<T>(s: seq<T>, i: nat)
    requires i <= |s|
    ensures i == |s| ==> s[..i] == s
    ensures i < |s| ==> forall x :: x in s[..i + 1] <==> x in s[..i] || x == s[i]
    ensures i < |s| && NoDuplicates(s) ==> s[i] !in s[..i]
  {
    if i < |s| {
      assert s[..i + 1] == s[..i] + [s[i]];
    }
  }

  /** Maps with the same keys and the same values are equal. */
  lemma MapsEqual<K, V>(a: map<K, V>, b: map<K, V>)
    requires forall k :: k in a <==> k in b
    requires forall k :: k in a ==> a[k] == b[k]
    ensures a == b
  {
  }

  /**
   * What removing transcript `t` does to the indexes: each of its words
   * and each of its phrases (whether or not phrases are indexed) loses it,
   * a term left without documents disappears, and its tags, date,
   * confidence bucket, session and language entries lose it the same way.
   */
  ghost predicate IndexesRemoved(before: Indexes, after: Indexes, t: TranscriptEntry, max_phrase_length: nat)
  {
    var words := Tokenize(t.text);
    var phrases := PhrasesFrom(words, 2, max_phrase_length);
    RemovedUpTo(before.words, after.words, t.id, words, |words|)
    && RemovedUpTo(before.phrases, after.phrases, t.id, phrases, |phrases|)
    && TagsRemoved(before.tags, after.tags, t.tags, t.id)
    && after.dates == RemoveId(before.dates, DateOf(t.timestamp), t.id)
    && after.confidences == RemoveId(before.confidences, ConfidenceRangeOf(t.confidence), t.id)
    && after.sessions == (if t.session_id.Some? then RemoveId(before.sessions, t.session_id.value, t.id)
                          else before.sessions)
    && after.languages == (if t.language.Some? then RemoveId(before.languages, t.language.value, t.id)
                           else before.languages)
  }

  /** The index part of `remove_transcript`. */
  method RemoveFromIndexes(ix: Indexes, t: TranscriptEntry, max_phrase_length: nat) returns (r: Indexes)
    requires IndexesValid(ix)
    ensures IndexesValid(r) && IndexesRemoved(ix, r, t, max_phrase_length)
  {
    var words := Tokenize(t.text);
    var words' := RemoveTerms(ix.words, t.id, words);
    var phrases := ExtractPhrases(t.text, max_phrase_length);
    var phrases' := RemoveTerms(ix.phrases, t.id, phrases);
    var tags', dates', confidences', sessions', languages' :=
      RemoveFromMetadata(t, ix.tags, ix.dates, ix.confidences, ix.sessions, ix.languages);
    r := Indexes(words', phrases', tags', dates', confidences', sessions', languages');
  }

  /**
   * Removing a stored transcript from indexes that described the storage
   * exactly leaves indexes that describe the remaining storage exactly.
   */
  lemma RemovalKeepsExact(before: Indexes, after: Indexes, storage: map<TranscriptId, TranscriptEntry>,
                          t: TranscriptEntry, config: IndexConfig)
    requires t.id in storage && storage[t.id] == t
    requires IndexesExact(before, storage, config) && IndexesRemoved(before, after, t, config.max_phrase_length)
    ensures IndexesExact(after, storage - {t.id}, config)
  {
    var words := Tokenize(t.text);
    var phrases := PhrasesFrom(words, 2, config.max_phrase_length);
    TermsExactRemove(before.words, after.words, storage, t.id, words, config, Words);
    TermsExactRemove(before.phrases, after.phrases, storage, t.id, phrases, config, Phrases);
    MetaExactRemove(before.tags, after.tags, storage, TagKeys, t.id);
    MetaExactRemove(before.dates, after.dates, storage, DateKeys, t.id);
    MetaExactRemove(before.confidences, after.confidences, storage, ConfidenceKeys, t.id);
    MetaExactRemove(before.sessions, after.sessions, storage, SessionKeys, t.id);
    MetaExactRemove(before.languages, after.languages, storage, LanguageKeys, t.id);
  }

  /** Removing a present key shrinks a map by one. */
  lemma MapRemoveCard<K, V>(m: map<K, V>, k: K)
    requires k in m
    ensures |m| == |m - {k}| + 1
  {
    assert (m - {k}).Keys == m.Keys - {k};
    assert |m.Keys - {k}| == |m.Keys| - 1;
  }

  /** `id` has left the sets of the given tags, and a tag left without documents has gone. */
  ghost predicate TagsRemoved(before: map<string, set<TranscriptId>>, after: map<string, set<TranscriptId>>,
                              tags: seq<string>, id: TranscriptId)
  {
    (forall k :: IdsOf(after, k) == IdsOf(before, k) - (if k in tags then {id} else {}))
    && (forall k :: k in after <==> k in before && (k in tags ==> before[k] - {id} != {}))
  }
}
