/** The lexical retrieval index of `src/services/ragService.js`: the knowledge
    text is cut into sentence-based chunks, each chunk is tokenised, and a
    query is answered with the chunks that share the most tokens with it.

    The knowledge file and the `vector_store.json` snapshot are parameters;
    the snapshot this module writes is kept in a field. */
module RagService {
  import opened Wrappers
  import opened JsText

  /** Chunk size `buildVectorStoreFromFile` asks for. */
  const ChunkSize: nat := 800

  /** How many chunks `searchRelevantContext` returns by default. */
  const DefaultTopK: nat := 3

  // ---------------------------------------------------------------------
  // Sentences and chunks

  /** The concatenation of `xs`. */
  function Concat(xs: seq<string>): string {
    if xs == [] then [] else xs[0] + Concat(xs[1..])
  }

  lemma {:induction false} ConcatAppend(xs: seq<string>, ys: seq<string>)
    ensures Concat(xs + ys) == Concat(xs) + Concat(ys)
  {
    if xs == [] {
      assert xs + ys == ys;
    } else {
      assert (xs + ys)[0] == xs[0];
      assert (xs + ys)[1..] == xs[1..] + ys;
      ConcatAppend(xs[1..], ys);
    }
  }

  /** Where the first sentence break of `s` lies: a maximal run of white space
      right after a `.` (the separator /(?<=\.)\s+/), as `(start, end)`. */
  function SentenceBreak(s: string, from: nat): (r: Option<(nat, nat)>)
    requires from <= |s|
    ensures r.Some? ==> from <= r.value.0 < r.value.1 <= |s| && r.value.0 >= 1 && s[r.value.0 - 1] == '.'
    ensures r.Some? ==> forall j :: r.value.0 <= j < r.value.1 ==> IsSpace(s[j])
    decreases |s| - from
  {
    if from == |s| then None
    else if from >= 1 && s[from - 1] == '.' && IsSpace(s[from]) then
      var t := TrimStart(s[from..]);
      Some((from, |s| - |t|))
    else SentenceBreak(s, from + 1)
  }

  /** `text.split(/(?<=\.)\s+/)`. */
  function SplitSentences(s: string): (r: seq<string>)
    ensures |r| >= 1
    decreases |s|
  {
    match SentenceBreak(s, 0)
    case None => [s]
    case Some(b) => [s[..b.0]] + SplitSentences(s[b.1..])
  }

  /** Splitting into sentences drops only white space. */
  lemma {:induction false} SplitSentencesVisible(s: string)
    ensures Visible(Concat(SplitSentences(s))) == Visible(s)
    decreases |s|
  {
    match SentenceBreak(s, 0)
    case None =>
      assert [s][1..] == [];
      assert Concat([s]) == s;
    case Some(b) =>
      var pre, gap, rest := s[..b.0], s[b.0..b.1], s[b.1..];
      SplitSentencesVisible(rest);
      var parts := SplitSentences(rest);
      assert SplitSentences(s) == [pre] + parts;
      assert ([pre] + parts)[1..] == parts;
      assert Concat(SplitSentences(s)) == pre + Concat(parts);
      assert s == pre + gap + rest;
      VisibleSplice(pre, gap, rest, Concat(parts));
  }

  /** Dropping white space between two pieces does not change what is visible. */
  lemma VisibleSplice(pre: string, gap: string, rest: string, rest': string)
    requires forall j :: 0 <= j < |gap| ==> IsSpace(gap[j])
    requires Visible(rest') == Visible(rest)
    ensures Visible(pre + rest') == Visible(pre + gap + rest)
  {
    var vp, vr := Visible(pre), Visible(rest);
    VisibleAppend(pre, rest');
    VisibleAllSpace(gap);
    VisibleAppend(pre, gap);
    assert Visible(pre + gap) == vp;
    VisibleAppend(pre + gap, rest);
    assert Visible(pre + gap + rest) == vp + vr;
  }

  /** A chunk that is too long can only be one sentence on its own. */
  predicate ChunkFits(c: string, maxLength: nat, sentences: seq<string>) {
    |c| <= maxLength || exists k :: 0 <= k < |sentences| && c == Trim(sentences[k] + " ")
  }

  /** Every chunk is non-empty, trimmed and fits. */
  predicate ChunksOk(chunks: seq<string>, maxLength: nat, sentences: seq<string>) {
    forall j :: 0 <= j < |chunks| ==> chunks[j] != "" && IsTrimmed(chunks[j]) && ChunkFits(chunks[j], maxLength, sentences)
  }

  /** The text being gathered for the next chunk: empty, or ending in the
      space added after a sentence, and short unless it is one sentence. */
  predicate CurrentFits(current: string, maxLength: nat, sentences: seq<string>, i: nat) {
    current == "" ||
    (current[|current| - 1] == ' ' &&
     (|current| <= maxLength + 1 || exists k :: 0 <= k < i && k < |sentences| && current == sentences[k] + " "))
  }

  /** The state of `chunkText`'s loop after `i` sentences. */
  predicate Gathered(chunks: seq<string>, current: string, maxLength: nat, sentences: seq<string>, i: nat) {
    i <= |sentences| &&
    ChunksOk(chunks, maxLength, sentences) &&
    CurrentFits(current, maxLength, sentences, i) &&
    Visible(Concat(chunks)) + Visible(current) == Visible(Concat(sentences[..i]))
  }

  /** `if (current.trim()) chunks.push(current.trim())`. */
  function Flush(chunks: seq<string>, current: string): seq<string> {
    if Trim(current) != "" then chunks + [Trim(current)] else chunks
  }

  /** The chunks `chunkText`'s loop produces from sentence `i` on, with
      `chunks` emitted and `current` gathered so far. */
  function ChunkFrom(sentences: seq<string>, maxLength: nat, i: nat, chunks: seq<string>, current: string): seq<string>
    requires i <= |sentences|
    decreases |sentences| - i
  {
    if i == |sentences| then Flush(chunks, current)
    else if |current + sentences[i]| > maxLength then
      ChunkFrom(sentences, maxLength, i + 1, Flush(chunks, current), "" + (sentences[i] + " "))
    else
      ChunkFrom(sentences, maxLength, i + 1, chunks, current + (sentences[i] + " "))
  }

  /** What `chunkText(text, maxLength)` returns. */
  function Chunks(text: string, maxLength: nat): seq<string> {
    ChunkFrom(SplitSentences(text), maxLength, 0, [], "")
  }

  /** `chunkText(text, maxLength)`: sentences are gathered, each followed by a
      space, until the next one would make the gathered text longer than
      `maxLength`; the gathered text is then emitted trimmed (if not blank). */
  method ChunkText(text: string, maxLength: nat) returns (chunks: seq<string>)
    ensures chunks == Chunks(text, maxLength)
    ensures ChunksOk(chunks, maxLength, SplitSentences(text))
    ensures Visible(Concat(chunks)) == Visible(text)
  {
    var sentences := SplitSentences(text);
    ghost var target := Chunks(text, maxLength);
    chunks := [];
    var current := "";
    var i := 0;
    while i < |sentences|
      invariant 0 <= i <= |sentences|
      invariant ChunkFrom(sentences, maxLength, i, chunks, current) == target
    {
      var sentence := sentences[i];
      if |current + sentence| > maxLength {
        chunks := Flush(chunks, current);
        current := "";
      }
      current := current + (sentence + " ");
      i := i + 1;
    }
    chunks := Flush(chunks, current);
    ChunksCorrect(text, maxLength);
  }

  /** Every chunk is non-empty, trimmed, and no longer than `maxLength` unless
      it is a single sentence; together the chunks hold exactly the text's
      non-white-space characters, in order. */
  lemma ChunksCorrect(text: string, maxLength: nat)
    ensures ChunksOk(Chunks(text, maxLength), maxLength, SplitSentences(text))
    ensures Visible(Concat(Chunks(text, maxLength))) == Visible(text)
  {
    var sentences := SplitSentences(text);
    assert sentences[..0] == [];
    ChunkFromCorrect(sentences, maxLength, 0, [], "");
    assert sentences[..|sentences|] == sentences;
    SplitSentencesVisible(text);
  }

  lemma {:induction false} ChunkFromCorrect(sentences: seq<string>, maxLength: nat, i: nat, chunks: seq<string>, current: string)
    requires Gathered(chunks, current, maxLength, sentences, i)
    ensures ChunksOk(ChunkFrom(sentences, maxLength, i, chunks, current), maxLength, sentences)
    ensures Visible(Concat(ChunkFrom(sentences, maxLength, i, chunks, current))) == Visible(Concat(sentences))
    decreases |sentences| - i
  {
    if i == |sentences| {
      FlushKeeps(chunks, current, maxLength, sentences, i);
      assert sentences[..i] == sentences;
    } else if |current + sentences[i]| > maxLength {
      FlushKeeps(chunks, current, maxLength, sentences, i);
      GatherKeeps(Flush(chunks, current), "", maxLength, sentences, i);
      ChunkFromCorrect(sentences, maxLength, i + 1, Flush(chunks, current), "" + (sentences[i] + " "));
    } else {
      GatherKeeps(chunks, current, maxLength, sentences, i);
      ChunkFromCorrect(sentences, maxLength, i + 1, chunks, current + (sentences[i] + " "));
    }
  }

  /** Emitting the gathered text keeps the loop's facts. */
  lemma FlushKeeps(chunks: seq<string>, current: string, maxLength: nat, sentences: seq<string>, i: nat)
    requires Gathered(chunks, current, maxLength, sentences, i)
    ensures Gathered(Flush(chunks, current), "", maxLength, sentences, i)
  {
    var t := Trim(current);
    if t != "" {
      EmitFits(current, maxLength, sentences, i);
      EmitVisible(chunks, current);
      ChunksOkSnoc(chunks, t, maxLength, sentences);
    } else {
      VisibleAllSpace(current);
      assert Visible(current) == [];
    }
    assert Visible("") == [];
  }

  lemma ChunksOkSnoc(chunks: seq<string>, c: string, maxLength: nat, sentences: seq<string>)
    requires ChunksOk(chunks, maxLength, sentences)
    requires c != "" && IsTrimmed(c) && ChunkFits(c, maxLength, sentences)
    ensures ChunksOk(chunks + [c], maxLength, sentences)
  {
    var cs := chunks + [c];
    forall j | 0 <= j < |cs|
      ensures cs[j] != "" && IsTrimmed(cs[j]) && ChunkFits(cs[j], maxLength, sentences)
    {
      if j < |chunks| {
        assert cs[j] == chunks[j];
      }
    }
  }

  lemma EmitFits(current: string, maxLength: nat, sentences: seq<string>, i: nat)
    requires CurrentFits(current, maxLength, sentences, i) && Trim(current) != ""
    ensures ChunkFits(Trim(current), maxLength, sentences)
  {
  }

  lemma EmitVisible(chunks: seq<string>, current: string)
    ensures Visible(Concat(chunks + [Trim(current)])) == Visible(Concat(chunks)) + Visible(current)
  {
    var t := Trim(current);
    ConcatAppend(chunks, [t]);
    assert [t][1..] == [];
    assert Concat([t]) == t;
    VisibleAppend(Concat(chunks), t);
    VisibleTrim(current);
  }

  /** Gathering one more sentence keeps the loop's facts. */
  lemma GatherKeeps(chunks: seq<string>, current: string, maxLength: nat, sentences: seq<string>, i: nat)
    requires i < |sentences| && Gathered(chunks, current, maxLength, sentences, i)
    requires current == "" || |current + sentences[i]| <= maxLength
    ensures Gathered(chunks, current + (sentences[i] + " "), maxLength, sentences, i + 1)
  {
    assert current + (sentences[i] + " ") == current + sentences[i] + " ";
    GatherFits(current, maxLength, sentences, i);
    Gather(chunks, current, sentences[i], sentences, i);
  }

  lemma GatherFits(current: string, maxLength: nat, sentences: seq<string>, i: nat)
    requires i < |sentences|
    requires current == "" || |current + sentences[i]| <= maxLength
    ensures CurrentFits(current + sentences[i] + " ", maxLength, sentences, i + 1)
  {
    var next := current + sentences[i] + " ";
    assert next[|next| - 1] == ' ';
    if current == "" {
      assert next == sentences[i] + " ";
    } else {
      assert |next| <= maxLength + 1;
    }
  }

  lemma Gather(chunks: seq<string>, current: string, sentence: string, sentences: seq<string>, i: nat)
    requires i < |sentences| && sentence == sentences[i]
    requires Visible(Concat(chunks)) + Visible(current) == Visible(Concat(sentences[..i]))
    ensures Visible(Concat(chunks)) + Visible(current + sentence + " ") == Visible(Concat(sentences[..i + 1]))
  {
    ConcatSnoc(sentences, i);
    VisibleAppend(Concat(sentences[..i]), sentence);
    VisibleSentence(current, sentence);
  }

  lemma ConcatSnoc(sentences: seq<string>, i: nat)
    requires i < |sentences|
    ensures Concat(sentences[..i + 1]) == Concat(sentences[..i]) + sentences[i]
  {
    assert sentences[..i + 1] == sentences[..i] + [sentences[i]];
    ConcatAppend(sentences[..i], [sentences[i]]);
    assert [sentences[i]][1..] == [];
  }

  lemma VisibleSentence(current: string, sentence: string)
    ensures Visible(current + sentence + " ") == Visible(current) + Visible(sentence)
  {
    VisibleAppend(current + sentence, " ");
    VisibleAppend(current, sentence);
    assert IsSpace(" "[0]);
    VisibleAllSpace(" ");
  }

  // ---------------------------------------------------------------------
  // Tokens

  /** The characters /[a-z0-9À-ɏ]/ keeps. */
  predicate IsTokenChar(c: char) {
    ('a' <= c <= 'z') || ('0' <= c <= '9') || (0xC0 <= c as int <= 0x24F)
  }

  /** One character after `toLowerCase()` and the replacement of every other
      character (except white space) by a space. */
  function CleanChar(c: char): (r: char)
    ensures IsTokenChar(r) || IsSpace(r)
  {
    var l := LowerChar(c);
    if IsTokenChar(l) || IsSpace(l) then l else ' '
  }

  function CleanText(s: string): (r: string)
    ensures |r| == |s|
    ensures forall i :: 0 <= i < |s| ==> r[i] == CleanChar(s[i])
  {
    seq(|s|, i requires 0 <= i < |s| => CleanChar(s[i]))
  }

  /** The length of the longest prefix of `t` without white space. */
  function WordLength(t: string): (n: nat)
    ensures n <= |t|
    ensures forall j :: 0 <= j < n ==> !IsSpace(t[j])
    ensures n < |t| ==> IsSpace(t[n])
  {
    if t == [] || IsSpace(t[0]) then 0 else 1 + WordLength(t[1..])
  }

  /** `s.split(/\s+/).filter(Boolean)`: the maximal runs of non-white-space characters. */
  function Words(s: string): seq<string>
    decreases |s|
  {
    if s == [] then []
    else if IsSpace(s[0]) then Words(s[1..])
    else
      var n := WordLength(s);
      [s[..n]] + Words(s[n..])
  }

  /** A lower-case character that /[a-z0-9À-ɏ]/ keeps. */
  predicate CleanTokenChar(c: char) {
    IsTokenChar(c) && LowerChar(c) == c
  }

  /** When every non-white-space character of `s` is a clean token character,
      the words are non-empty and made only of such characters. */
  lemma {:induction false} WordsChars(s: string)
    requires forall k :: 0 <= k < |s| ==> IsSpace(s[k]) || CleanTokenChar(s[k])
    ensures forall i :: 0 <= i < |Words(s)| ==> Words(s)[i] != ""
    ensures forall i, j :: 0 <= i < |Words(s)| && 0 <= j < |Words(s)[i]| ==> CleanTokenChar(Words(s)[i][j])
    decreases |s|
  {
    if s != [] {
      var rest := if IsSpace(s[0]) then s[1..] else s[WordLength(s)..];
      assert forall k :: 0 <= k < |rest| ==> IsSpace(rest[k]) || CleanTokenChar(rest[k]) by {
        forall k | 0 <= k < |rest| ensures IsSpace(rest[k]) || CleanTokenChar(rest[k]) {
          assert rest[k] == s[|s| - |rest| + k];
        }
      }
      WordsChars(rest);
      if !IsSpace(s[0]) {
        var n := WordLength(s);
        WordsCons(s[..n], Words(rest), Words(s));
      }
    }
  }

  lemma WordsCons(w: string, ws: seq<string>, r: seq<string>)
    requires r == [w] + ws && w != ""
    requires forall j :: 0 <= j < |w| ==> CleanTokenChar(w[j])
    requires forall i :: 0 <= i < |ws| ==> ws[i] != ""
    requires forall i, j :: 0 <= i < |ws| && 0 <= j < |ws[i]| ==> CleanTokenChar(ws[i][j])
    ensures forall i :: 0 <= i < |r| ==> r[i] != ""
    ensures forall i, j :: 0 <= i < |r| && 0 <= j < |r[i]| ==> CleanTokenChar(r[i][j])
  {
    forall i | 0 < i < |r| ensures r[i] == ws[i - 1] {
    }
  }

  /** The words are exactly the non-white-space characters, in order. */
  lemma {:induction false} WordsVisible(s: string)
    ensures Concat(Words(s)) == Visible(s)
    decreases |s|
  {
    if s != [] {
      if IsSpace(s[0]) {
        WordsVisible(s[1..]);
      } else {
        var n := WordLength(s);
        var w, rest := s[..n], s[n..];
        WordsVisible(rest);
        assert s == w + rest;
        VisibleAppend(w, rest);
        VisibleNoSpace(w);
        assert Words(s) == [w] + Words(rest);
        assert ([w] + Words(rest))[1..] == Words(rest);
      }
    }
  }

  lemma {:induction false} VisibleNoSpace(w: string)
    requires forall j :: 0 <= j < |w| ==> !IsSpace(w[j])
    ensures Visible(w) == w
  {
    if w != [] {
      VisibleNoSpace(w[1..]);
      assert w == [w[0]] + w[1..];
    }
  }

  /** `tokenize(text)`. */
  function Tokenize(text: string): seq<string> {
    Words(CleanText(text))
  }

  /** Tokens are non-empty, already lower-case, and made only of a–z, 0–9 and
      U+00C0–U+024F; together they hold every such character of the cleaned
      text, in order. */
  lemma TokenizeShape(text: string)
    ensures forall i :: 0 <= i < |Tokenize(text)| ==> Tokenize(text)[i] != ""
    ensures forall i, j :: 0 <= i < |Tokenize(text)| && 0 <= j < |Tokenize(text)[i]| ==>
      IsTokenChar(Tokenize(text)[i][j]) && LowerChar(Tokenize(text)[i][j]) == Tokenize(text)[i][j]
    ensures Concat(Tokenize(text)) == Visible(CleanText(text))
  {
    var c := CleanText(text);
    forall k | 0 <= k < |c| ensures IsSpace(c[k]) || CleanTokenChar(c[k]) {
      assert c[k] == CleanChar(text[k]);
      LowerCharIdempotent(text[k]);
    }
    WordsChars(c);
    WordsVisible(c);
  }

  lemma LowerCharIdempotent(c: char)
    ensures LowerChar(CleanChar(c)) == CleanChar(c)
  {
  }

  /** Text without any token character has no tokens. */
  lemma NoTokenChars(text: string)
    requires forall i :: 0 <= i < |text| ==> !IsTokenChar(LowerChar(text[i]))
    ensures Tokenize(text) == []
  {
    var c := CleanText(text);
    forall i | 0 <= i < |c| ensures IsSpace(c[i]) {
      assert c[i] == CleanChar(text[i]);
    }
    WordsChars(c);
    WordsVisible(c);
    VisibleAllSpace(c);
  }

  // ---------------------------------------------------------------------
  // Scoring

  /** How many query tokens, counted with repetition, occur in the chunk. */
  function OverlapScore(queryTokens: seq<string>, chunkTokens: seq<string>): (r: nat)
    ensures r <= |queryTokens|
  {
    if queryTokens == [] then 0
    else (if queryTokens[0] in chunkTokens then 1 else 0) + OverlapScore(queryTokens[1..], chunkTokens)
  }

  lemma {:induction false} OverlapAppend(a: seq<string>, b: seq<string>, chunkTokens: seq<string>)
    ensures OverlapScore(a + b, chunkTokens) == OverlapScore(a, chunkTokens) + OverlapScore(b, chunkTokens)
  {
    if a == [] {
      assert a + b == b;
    } else {
      assert (a + b)[0] == a[0];
      assert (a + b)[1..] == a[1..] + b;
      OverlapAppend(a[1..], b, chunkTokens);
    }
  }

  /** The score is 0 exactly when no query token occurs in the chunk, and it
      is the number of query tokens exactly when all of them do. */
  lemma {:induction false} OverlapZeroIff(queryTokens: seq<string>, chunkTokens: seq<string>)
    ensures OverlapScore(queryTokens, chunkTokens) == 0 <==>
      forall i :: 0 <= i < |queryTokens| ==> queryTokens[i] !in chunkTokens
    ensures OverlapScore(queryTokens, chunkTokens) == |queryTokens| <==>
      forall i :: 0 <= i < |queryTokens| ==> queryTokens[i] in chunkTokens
  {
    if queryTokens != [] {
      OverlapZeroIff(queryTokens[1..], chunkTokens);
      assert forall i :: 1 <= i < |queryTokens| ==> queryTokens[i] == queryTokens[1..][i - 1];
    }
  }

  /** `tokenOverlapScore(queryTokens, chunkTokens)`. */
  method TokenOverlapScore(queryTokens: seq<string>, chunkTokens: seq<string>) returns (score: nat)
    ensures score == OverlapScore(queryTokens, chunkTokens)
  {
    var setChunk := set t | t in chunkTokens;
    score := 0;
    var i := 0;
    while i < |queryTokens|
      invariant 0 <= i <= |queryTokens|
      invariant score == OverlapScore(queryTokens[..i], chunkTokens)
    {
      OverlapAppend(queryTokens[..i], [queryTokens[i]], chunkTokens);
      assert queryTokens[..i + 1] == queryTokens[..i] + [queryTokens[i]];
      if queryTokens[i] in setChunk {
        score := score + 1;
      }
      i := i + 1;
    }
    assert queryTokens[..i] == queryTokens;
  }

  // ---------------------------------------------------------------------
  // Ranking

  /** One indexed chunk: `text` is `None` for a snapshot entry without one. */
  datatype Entry = Entry(text: Option<string>, tokens: seq<string>)

  /** A chunk with its score for the current query. */
  datatype Scored = Scored(text: Option<string>, score: nat)

  function ScoreAll(store: seq<Entry>, queryTokens: seq<string>): (r: seq<Scored>)
    ensures |r| == |store|
    ensures forall i :: 0 <= i < |store| ==>
      r[i] == Scored(store[i].text, OverlapScore(queryTokens, store[i].tokens))
  {
    seq(|store|, i requires 0 <= i < |store| => Scored(store[i].text, OverlapScore(queryTokens, store[i].tokens)))
  }

  /** `.filter(item => item.score > 0)`. */
  function Positive(xs: seq<Scored>): (r: seq<Scored>)
    ensures forall x :: x in r <==> x in xs && x.score > 0
  {
    if xs == [] then []
    else (if xs[0].score > 0 then [xs[0]] else []) + Positive(xs[1..])
  }

  lemma {:induction false} PositiveNone(xs: seq<Scored>)
    requires forall i :: 0 <= i < |xs| ==> xs[i].score == 0
    ensures Positive(xs) == []
  {
    if xs != [] {
      PositiveNone(xs[1..]);
    }
  }

  /** The items of `xs` with score `v`, in order. */
  function WithScore(xs: seq<Scored>, v: nat): seq<Scored> {
    if xs == [] then []
    else (if xs[0].score == v then [xs[0]] else []) + WithScore(xs[1..], v)
  }

  lemma {:induction false} WithScoreAppend(a: seq<Scored>, b: seq<Scored>, v: nat)
    ensures WithScore(a + b, v) == WithScore(a, v) + WithScore(b, v)
  {
    if a == [] {
      assert a + b == b;
    } else {
      var head: seq<Scored> := if a[0].score == v then [a[0]] else [];
      assert (a + b)[0] == a[0];
      assert (a + b)[1..] == a[1..] + b;
      assert WithScore(a + b, v) == head + WithScore(a[1..] + b, v);
      WithScoreAppend(a[1..], b, v);
      assert head + (WithScore(a[1..], v) + WithScore(b, v)) == (head + WithScore(a[1..], v)) + WithScore(b, v);
    }
  }

  lemma {:induction false} WithScoreNone(xs: seq<Scored>, v: nat)
    requires forall i :: 0 <= i < |xs| ==> xs[i].score != v
    ensures WithScore(xs, v) == []
  {
    if xs != [] {
      WithScoreNone(xs[1..], v);
    }
  }

  predicate SortedByScore(xs: seq<Scored>) {
    forall i, j :: 0 <= i < j < |xs| ==> xs[i].score >= xs[j].score
  }

  /** Inserting into a list sorted by descending score: after every item
      whose score is at least as high. */
  function Insert(x: Scored, xs: seq<Scored>): (r: seq<Scored>)
    ensures |r| == |xs| + 1
  {
    if xs == [] then [x]
    else if xs[0].score >= x.score then [xs[0]] + Insert(x, xs[1..])
    else [x] + xs
  }

  lemma {:induction false} InsertPermutes(x: Scored, xs: seq<Scored>)
    ensures multiset(Insert(x, xs)) == multiset(xs) + multiset{x}
  {
    if xs != [] && xs[0].score >= x.score {
      InsertPermutes(x, xs[1..]);
      assert xs == [xs[0]] + xs[1..];
    }
  }

  lemma WithScoreCons(y: Scored, tail: seq<Scored>, v: nat)
    ensures WithScore([y] + tail, v) == (if y.score == v then [y] else []) + WithScore(tail, v)
  {
    assert ([y] + tail)[1..] == tail;
  }

  lemma {:induction false} InsertSorted(x: Scored, xs: seq<Scored>)
    requires SortedByScore(xs)
    ensures SortedByScore(Insert(x, xs))
  {
    if xs != [] && xs[0].score >= x.score {
      InsertSorted(x, xs[1..]);
      InsertPermutes(x, xs[1..]);
      var tail := Insert(x, xs[1..]);
      forall j | 0 <= j < |tail| ensures xs[0].score >= tail[j].score {
        assert tail[j] in multiset(xs[1..]) + multiset{x};
        if tail[j] != x {
          assert tail[j] in xs[1..];
        }
      }
    }
  }

  /** Inserting keeps the items of each score in order, the new one last. */
  lemma {:induction false} InsertWithScore(x: Scored, xs: seq<Scored>, v: nat)
    requires SortedByScore(xs)
    ensures WithScore(Insert(x, xs), v) == WithScore(xs, v) + WithScore([x], v)
  {
    if xs != [] {
      if xs[0].score >= x.score {
        InsertWithScore(x, xs[1..], v);
        InsertBehind(x, xs, v);
      } else {
        InsertFront(x, xs, v);
      }
    }
  }

  lemma InsertBehind(x: Scored, xs: seq<Scored>, v: nat)
    requires xs != [] && xs[0].score >= x.score
    requires WithScore(Insert(x, xs[1..]), v) == WithScore(xs[1..], v) + WithScore([x], v)
    ensures WithScore(Insert(x, xs), v) == WithScore(xs, v) + WithScore([x], v)
  {
    var h := if xs[0].score == v then [xs[0]] else [];
    var a, b := WithScore(xs[1..], v), WithScore([x], v);
    assert Insert(x, xs) == [xs[0]] + Insert(x, xs[1..]);
    WithScoreCons(xs[0], Insert(x, xs[1..]), v);
    assert WithScore(Insert(x, xs), v) == h + (a + b);
    WithScoreCons(xs[0], xs[1..], v);
    assert [xs[0]] + xs[1..] == xs;
    assert WithScore(xs, v) == h + a;
    assert h + (a + b) == (h + a) + b;
  }

  lemma InsertFront(x: Scored, xs: seq<Scored>, v: nat)
    requires SortedByScore(xs) && xs != [] && xs[0].score < x.score
    ensures WithScore(Insert(x, xs), v) == WithScore(xs, v) + WithScore([x], v)
  {
    assert Insert(x, xs) == [x] + xs;
    WithScoreAppend([x], xs, v);
    if x.score == v {
      WithScoreNone(xs, v);
    } else {
      assert WithScore([x], v) == [];
    }
  }

  /** `.sort((a, b) => b.score - a.score)`: a stable sort by descending score. */
  function SortByScore(xs: seq<Scored>): (r: seq<Scored>)
    ensures |r| == |xs|
  {
    if xs == [] then []
    else Insert(xs[|xs| - 1], SortByScore(xs[..|xs| - 1]))
  }

  /** The sort is a permutation that orders by descending score, and items of
      equal score keep their relative order. */
  lemma {:induction false} SortByScoreCorrect(xs: seq<Scored>)
    ensures multiset(SortByScore(xs)) == multiset(xs)
    ensures SortedByScore(SortByScore(xs))
    ensures forall v :: WithScore(SortByScore(xs), v) == WithScore(xs, v)
    decreases |xs|
  {
    if xs != [] {
      var init := xs[..|xs| - 1];
      var last := xs[|xs| - 1];
      SortByScoreCorrect(init);
      InsertSorted(last, SortByScore(init));
      InsertPermutes(last, SortByScore(init));
      assert xs == init + [last];
      forall v ensures WithScore(SortByScore(xs), v) == WithScore(xs, v) {
        InsertWithScore(last, SortByScore(init), v);
        WithScoreAppend(init, [last], v);
      }
    }
  }

  /** `.slice(0, topK)`. */
  function Take<T>(xs: seq<T>, n: nat): (r: seq<T>)
    ensures |r| <= n && |r| <= |xs| && r == xs[..|r|]
    ensures |xs| >= n ==> |r| == n
  {
    if |xs| <= n then xs else xs[..n]
  }

  /** The chunks a query selects, best first. */
  function Ranked(store: seq<Entry>, queryTokens: seq<string>, topK: nat): seq<Scored> {
    Take(SortByScore(Positive(ScoreAll(store, queryTokens))), topK)
  }

  /** At most `topK` chunks are selected, none with score 0, each a chunk of
      the store with its score; they come in descending score order, and a
      chunk is passed over only for one with at least its score. */
  lemma RankedCorrect(store: seq<Entry>, queryTokens: seq<string>, topK: nat)
    ensures var r := Ranked(store, queryTokens, topK);
      |r| <= topK && SortedByScore(r) &&
      forall i :: 0 <= i < |r| ==> r[i].score > 0 && r[i] in ScoreAll(store, queryTokens)
    ensures forall v :: (WithScore(SortByScore(Positive(ScoreAll(store, queryTokens))), v) ==
      (if v > 0 then WithScore(ScoreAll(store, queryTokens), v) else []))
    ensures var r := Ranked(store, queryTokens, topK);
      |r| < topK ==> multiset(r) == multiset(Positive(ScoreAll(store, queryTokens)))
  {
    var all := ScoreAll(store, queryTokens);
    var sorted := SortByScore(Positive(all));
    SortByScoreCorrect(Positive(all));
    var r := Ranked(store, queryTokens, topK);
    forall i | 0 <= i < |r| ensures r[i].score > 0 && r[i] in all {
      assert r[i] == sorted[i];
      assert sorted[i] in multiset(Positive(all));
    }
    forall v ensures WithScore(sorted, v) == (if v > 0 then WithScore(all, v) else []) {
      PositiveWithScore(all, v);
    }
    if |r| < topK {
      assert r == sorted;
    }
  }

  lemma {:induction false} PositiveWithScore(xs: seq<Scored>, v: nat)
    ensures WithScore(Positive(xs), v) == (if v > 0 then WithScore(xs, v) else [])
  {
    if xs != [] {
      PositiveWithScore(xs[1..], v);
      var head := if xs[0].score > 0 then [xs[0]] else [];
      WithScoreAppend(head, Positive(xs[1..]), v);
    }
  }

  /** `item.text` as `join` prints it: `undefined` prints as ''. */
  function TextOf(x: Scored): string {
    x.text.GetOr("")
  }

  /** `searchRelevantContext(query, topK)` over the current store. */
  function Search(store: seq<Entry>, query: string, topK: nat): (r: string)
    ensures query == "" || store == [] || Tokenize(query) == [] ==> r == ""
  {
    if query == "" || store == [] then ""
    else
      var queryTokens := Tokenize(query);
      if queryTokens == [] then ""
      else
        var ranked := Ranked(store, queryTokens, topK);
        Join(seq(|ranked|, i requires 0 <= i < |ranked| => TextOf(ranked[i])), "\n\n")
  }

  /** A query that shares no token with any chunk retrieves nothing. */
  lemma NoOverlapNoContext(store: seq<Entry>, query: string, topK: nat)
    requires forall i :: 0 <= i < |store| ==> OverlapScore(Tokenize(query), store[i].tokens) == 0
    ensures Search(store, query, topK) == ""
  {
    var all := ScoreAll(store, Tokenize(query));
    PositiveNone(all);
  }

  // ---------------------------------------------------------------------
  // The index

  /** One element of a `vector_store.json` snapshot: `NullItem` is `null`,
      whose `.text` access throws; `tokens` is `None` when it is not an array. */
  datatype SnapshotItem = NullItem | Item(text: Option<string>, tokens: Option<seq<string>>)

  /** `vector_store.json` as found at start-up. */
  datatype Snapshot = NoSnapshot | Unparsable | NotAnArray | Items(items: seq<SnapshotItem>)

  /** The entry `loadVectorStore` makes of a snapshot item: its tokens, or its
      text tokenised again when it has no token array. */
  function EntryOf(item: SnapshotItem): (e: Entry)
    requires item.Item?
    ensures item.tokens.Some? ==> e.tokens == item.tokens.value
    ensures item.tokens.None? ==> e.tokens == Tokenize(item.text.GetOr(""))
    ensures e.text == item.text
  {
    Entry(item.text, if item.tokens.Some? then item.tokens.value else Tokenize(item.text.GetOr("")))
  }

  /** The snapshot `buildVectorStoreFromFile` writes for a store. */
  function SnapshotOf(store: seq<Entry>): seq<SnapshotItem> {
    seq(|store|, i requires 0 <= i < |store| => Item(store[i].text, Some(store[i].tokens)))
  }

  /** Whether `loadVectorStore` accepts a snapshot: an array without `null`. */
  predicate Loadable(snapshot: Snapshot) {
    snapshot.Items? && forall i :: 0 <= i < |snapshot.items| ==> snapshot.items[i].Item?
  }

  /** The store `loadVectorStore` makes of an accepted snapshot. */
  function LoadedStore(items: seq<SnapshotItem>): (r: seq<Entry>)
    requires forall i :: 0 <= i < |items| ==> items[i].Item?
    ensures |r| == |items|
    ensures forall i :: 0 <= i < |items| ==> r[i] == EntryOf(items[i])
  {
    seq(|items|, i requires 0 <= i < |items| => EntryOf(items[i]))
  }

  /** The store `buildVectorStoreFromFile` makes of the knowledge text. */
  function BuiltStore(knowledge: string): (r: seq<Entry>) {
    var chunks := Chunks(knowledge, ChunkSize);
    seq(|chunks|, i requires 0 <= i < |chunks| => Entry(Some(chunks[i]), Tokenize(chunks[i])))
  }

  /** The texts of a store, as `join` prints them. */
  function Texts(store: seq<Entry>): (r: seq<string>)
    ensures |r| == |store|
    ensures forall i :: 0 <= i < |store| ==> r[i] == store[i].text.GetOr("")
  {
    seq(|store|, i requires 0 <= i < |store| => store[i].text.GetOr(""))
  }

  /** A built store holds the knowledge text's chunks, each with its own
      tokens: every chunk is a non-empty trimmed text of at most 800
      characters unless it is one sentence, and together they hold all of the
      text's non-white-space characters, in order. */
  lemma BuiltStoreCorrect(knowledge: string)
    ensures var store := BuiltStore(knowledge);
      (forall i :: 0 <= i < |store| ==>
        store[i].text.Some? && store[i].tokens == Tokenize(store[i].text.value)) &&
      ChunksOk(Texts(store), ChunkSize, SplitSentences(knowledge)) &&
      Visible(Concat(Texts(store))) == Visible(knowledge)
  {
    ChunksCorrect(knowledge, ChunkSize);
    assert Texts(BuiltStore(knowledge)) == Chunks(knowledge, ChunkSize);
  }

  /** Loading the snapshot a build wrote gives back the same store. */
  lemma SnapshotRoundTrip(store: seq<Entry>)
    ensures Loadable(Items(SnapshotOf(store)))
    ensures LoadedStore(SnapshotOf(store)) == store
  {
  }

  class KnowledgeBase {
    var vectorStore: seq<Entry>
    /** `vector_store.json` as this process last wrote it. */
    var written: Option<seq<SnapshotItem>>

    constructor ()
      ensures vectorStore == [] && written.None?
    {
      vectorStore := [];
      written := None;
    }

    /** `loadVectorStore()`: a readable array snapshot replaces the store; a
      missing, unreadable or non-array snapshot, or a `null` item (whose
      `.text` throws inside the `try`), leaves it as it was. */
    method LoadVectorStore(snapshot: Snapshot) returns (loaded: bool)
      modifies this`vectorStore
      ensures loaded <==> Loadable(snapshot)
      ensures loaded ==> vectorStore == LoadedStore(snapshot.items)
      ensures !loaded ==> vectorStore == old(vectorStore)
    {
      if !snapshot.Items? {
        return false;
      }
      var items := snapshot.items;
      if exists i :: 0 <= i < |items| && items[i].NullItem? {
        return false;
      }
      vectorStore := LoadedStore(items);
      loaded := true;
    }

    /** `buildVectorStoreFromFile()`: without a knowledge file the store is
      empty; otherwise it holds the file's chunks with their tokens, and the
      snapshot is written. */
    method BuildVectorStoreFromFile(knowledge: Option<string>)
      modifies this
      ensures knowledge.None? ==> vectorStore == [] && written == old(written)
      ensures knowledge.Some? ==> vectorStore == BuiltStore(knowledge.value)
      ensures knowledge.Some? ==> written == Some(SnapshotOf(vectorStore))
    {
      if knowledge.None? {
        vectorStore := [];
        return;
      }
      var chunks := ChunkText(knowledge.value, ChunkSize);
      vectorStore := seq(|chunks|, i requires 0 <= i < |chunks| => Entry(Some(chunks[i]), Tokenize(chunks[i])));
      written := Some(SnapshotOf(vectorStore));
    }

    /** `initializeKnowledgeBase()`: the snapshot if it loads, else a rebuild. */
    method InitializeKnowledgeBase(snapshot: Snapshot, knowledge: Option<string>)
      modifies this
      ensures Loadable(snapshot) ==> vectorStore == LoadedStore(snapshot.items)
      ensures !Loadable(snapshot) ==>
        vectorStore == if knowledge.Some? then BuiltStore(knowledge.value) else []
      ensures Loadable(snapshot) || knowledge.None? ==> written == old(written)
      ensures !Loadable(snapshot) && knowledge.Some? ==> written == Some(SnapshotOf(vectorStore))
    {
      var loaded := LoadVectorStore(snapshot);
      if !loaded {
        BuildVectorStoreFromFile(knowledge);
      }
    }
  }
}
