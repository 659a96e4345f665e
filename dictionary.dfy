/** model.Dictionary: a shuffled word list read through a cursor that jumps SKIP entries per draw. */
module Dictionaries {
  /** Entries skipped per draw, so that neighbouring (related) words are not dealt together. */
  const SKIP := 5
  /** The size of the shipped word list; the cursor bound is this constant, not the list length. */
  const NUM_DICTIONARY_WORDS := 400

  /** A draw that moves the counter to `pos` either passes the 400 bound or reads inside the list. */
  predicate ReadableAt(words: seq<string>, pos: int) {
    pos >= NUM_DICTIONARY_WORDS || 0 <= pos < |words|
  }

  /** What getNextWord returns when the counter is `counter` before the call. */
  function NextWord(words: seq<string>, counter: int): string
    requires words == [] || ReadableAt(words, counter + SKIP)
  {
    if words == [] then ""
    else if counter + SKIP >= NUM_DICTIONARY_WORDS then ""
    else words[counter + SKIP]
  }

  /** The counter after `n` calls of getNextWord. */
  function CounterAfter(words: seq<string>, counter: int, n: nat): int {
    if words == [] then counter else counter + SKIP * n
  }

  /** `n` successive calls of getNextWord from `counter` stay inside the list. */
  predicate CanDraw(words: seq<string>, counter: int, n: nat) {
    words == [] || forall j :: 0 <= j < n ==> ReadableAt(words, CounterAfter(words, counter, j) + SKIP)
  }

  /** The words that `n` successive calls of getNextWord return, in order. */
  function Draws(words: seq<string>, counter: int, n: nat): (r: seq<string>)
    requires CanDraw(words, counter, n)
    ensures |r| == n
  {
    seq(n, j requires 0 <= j < n => NextWord(words, CounterAfter(words, counter, j)))
  }

  /** One more draw appends the word read at the advanced counter. */
  lemma DrawsStep(words: seq<string>, counter: int, n: nat)
    requires CanDraw(words, counter, n + 1)
    ensures CanDraw(words, counter, n)
    ensures words == [] || ReadableAt(words, CounterAfter(words, counter, n) + SKIP)
    ensures Draws(words, counter, n + 1)
         == Draws(words, counter, n) + [NextWord(words, CounterAfter(words, counter, n))]
  {
    if words != [] {
      assert CounterAfter(words, counter, n) + SKIP == counter + SKIP * (n + 1);
    }
  }

  /** Drawing a + b words is drawing a words, then b more from where the counter stopped. */
  lemma DrawsSplit(words: seq<string>, counter: int, a: nat, b: nat)
    requires CanDraw(words, counter, a + b)
    ensures CanDraw(words, counter, a) && CanDraw(words, CounterAfter(words, counter, a), b)
    ensures CounterAfter(words, CounterAfter(words, counter, a), b) == CounterAfter(words, counter, a + b)
    ensures Draws(words, counter, a + b)
         == Draws(words, counter, a) + Draws(words, CounterAfter(words, counter, a), b)
  {
    if words != [] {
      forall j | 0 <= j < b
        ensures CounterAfter(words, CounterAfter(words, counter, a), j) == CounterAfter(words, counter, a + j)
      {
      }
    }
  }

  /** A list longer than SKIP * n entries (or an empty one) serves n draws from a fresh counter. */
  lemma CanDrawFromStart(words: seq<string>, n: nat)
    requires words == [] || |words| > SKIP * n
    ensures CanDraw(words, 0, n)
  {
    if words != [] {
      forall j | 0 <= j < n ensures ReadableAt(words, CounterAfter(words, 0, j) + SKIP) {
        assert CounterAfter(words, 0, j) + SKIP == SKIP * (j + 1) <= SKIP * n;
      }
    }
  }

  /** From a fresh counter, the k-th draw (k >= 1) is entry 5k while 5k < 400, and "" from then on;
      entry 0 is never dealt. */
  lemma {:induction false} DrawsFromStart(words: seq<string>, n: nat, j: nat)
    requires |words| >= NUM_DICTIONARY_WORDS
    requires j < n
    ensures CanDraw(words, 0, n)
    ensures SKIP * (j + 1) < NUM_DICTIONARY_WORDS ==> Draws(words, 0, n)[j] == words[SKIP * (j + 1)]
    ensures SKIP * (j + 1) >= NUM_DICTIONARY_WORDS ==> Draws(words, 0, n)[j] == ""
  {
    forall i | 0 <= i < n ensures ReadableAt(words, CounterAfter(words, 0, i) + SKIP) {
      if SKIP * (i + 1) < NUM_DICTIONARY_WORDS {
        assert 0 <= CounterAfter(words, 0, i) + SKIP < |words|;
      }
    }
    assert CounterAfter(words, 0, j) + SKIP == SKIP * (j + 1);
  }

  /** In-bounds draws read pairwise distinct positions, so a list without repeated words never
      deals the same word twice. */
  lemma {:induction false} DrawsDistinct(words: seq<string>, counter: int, n: nat)
    requires words != [] && CanDraw(words, counter, n)
    requires counter + SKIP * n < NUM_DICTIONARY_WORDS
    requires forall p, q :: 0 <= p < q < |words| ==> words[p] != words[q]
    ensures forall p, q :: 0 <= p < q < n ==> Draws(words, counter, n)[p] != Draws(words, counter, n)[q]
  {
    forall p, q | 0 <= p < q < n
      ensures Draws(words, counter, n)[p] != Draws(words, counter, n)[q]
    {
      var pp, qq := counter + SKIP * (p + 1), counter + SKIP * (q + 1);
      assert pp < qq <= counter + SKIP * n;
      assert CounterAfter(words, counter, p) + SKIP == pp;
      assert CounterAfter(words, counter, q) + SKIP == qq;
      assert Draws(words, counter, n)[p] == words[pp];
      assert Draws(words, counter, n)[q] == words[qq];
    }
  }

  class Dictionary {
    var fullDictionary: seq<string>
    var counter: int

    /** An empty dictionary with counter 0. */
    constructor ()
      ensures fullDictionary == [] && counter == 0
      ensures IsEmpty()
    {
      fullDictionary := [];
      counter := 0;
    }

    /** initializeDictionary: appends the lines of the bundled word list (given here). */
    method InitializeDictionary(lines: seq<string>)
      modifies this
      ensures fullDictionary == old(fullDictionary) + lines
      ensures counter == old(counter)
    {
      fullDictionary := fullDictionary + lines;
    }

    /** shuffleDictionary: some permutation of the list. */
    method ShuffleDictionary()
      modifies this
      ensures multiset(fullDictionary) == old(multiset(fullDictionary))
      ensures |fullDictionary| == old(|fullDictionary|)
      ensures counter == old(counter)
    {
      var shuffled :| multiset(shuffled) == multiset(fullDictionary);
      fullDictionary := shuffled;
    }

    /** getNextWord: advance by SKIP, then read (nothing moves while the list is empty). */
    method GetNextWord() returns (word: string)
      requires fullDictionary == [] || ReadableAt(fullDictionary, counter + SKIP)
      modifies this
      ensures word == NextWord(old(fullDictionary), old(counter))
      ensures counter == CounterAfter(old(fullDictionary), old(counter), 1)
      ensures fullDictionary == old(fullDictionary)
      ensures old(fullDictionary) == [] ==> word == "" && counter == old(counter)
      ensures old(fullDictionary) != [] ==> counter > old(counter)
      ensures old(counter) + SKIP >= NUM_DICTIONARY_WORDS ==> word == ""
    {
      if fullDictionary == [] {
        word := "";
      } else {
        counter := counter + SKIP;
        if counter >= NUM_DICTIONARY_WORDS {
          word := "";
        } else {
          word := fullDictionary[counter];
        }
      }
    }

    function GetCounter(): int
      reads this
    {
      counter
    }

    method SetCounter(val: int)
      modifies this
      ensures counter == val && fullDictionary == old(fullDictionary)
    {
      counter := val;
    }

    predicate IsEmpty()
      reads this
    {
      |fullDictionary| == 0
    }
  }
}
