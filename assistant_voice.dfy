/** The voice assistant's text helpers and its pre-roll buffer: the audio
    kept from just before a hotword, so that the start of a command is not
    lost. */
module Voice {
  import opened Text

  const Hotword: string := "jarvis"

  /** `normalize_text`: the words of the lower-cased, stripped text, joined
      by single spaces; lower-cased, with no white space at either end. */
  function NormalizeText(text: string): (r: string)
    ensures Words(r) == Words(Strip(Lower(text)))
    ensures Lowered(r) && SingleSpaced(r)
    ensures r != [] ==> !IsSpace(r[0]) && !IsSpace(r[|r| - 1])
  {
    var ws := Words(Strip(Lower(text)));
    StripLowered(Lower(text));
    WordsLowered(Strip(Lower(text)));
    JoinLowered(ws);
    WordsOfJoin(ws);
    Join(ws)
  }

  /** Stripping a lower-cased text keeps it lower-cased. */
  lemma StripLowered(s: string)
    requires Lowered(s)
    ensures Lowered(Strip(s))
  {
    var a := TrimStart(s);
    var r := TrimEnd(a);
    assert Strip(s) == r;
    forall i | 0 <= i < |r| ensures LowerChar(r[i]) == r[i] {
      assert r[i] == a[i] == s[|s| - |a| + i];
    }
  }

  /** A text has no words exactly when it is blank. */
  lemma {:induction false} WordsOfBlank(s: string)
    ensures Words(s) == [] <==> Blank(s)
    decreases |s|
  {
    if s != [] {
      if IsSpace(s[0]) {
        WordsOfBlank(s[1..]);
        if Blank(s[1..]) {
          forall i | 0 <= i < |s| ensures IsSpace(s[i]) {
            if i > 0 { assert s[i] == s[1..][i - 1]; }
          }
        }
      }
    }
  }

  /** Lower-casing neither creates nor removes white space. */
  lemma BlankLower(s: string)
    ensures Blank(Lower(s)) <==> Blank(s)
  {
    forall i | 0 <= i < |s| ensures IsSpace(Lower(s)[i]) <==> IsSpace(s[i]) {
      assert Lower(s)[i] == LowerChar(s[i]);
    }
  }

  /** Normalising gives the empty text exactly for a blank one, and a
      normalised text is its own normal form: `normalize_text` is
      idempotent. */
  lemma NormalizeIdempotent(text: string)
    ensures NormalizeText(text) == [] <==> Blank(text)
    ensures NormalizeText(NormalizeText(text)) == NormalizeText(text)
  {
    var s := Strip(Lower(text));
    var ws := Words(s);
    var n := NormalizeText(text);
    assert n == Join(ws);
    WordsOfBlank(s);
    BlankLower(text);
    LowerOfLowered(n);
    assert Strip(n) == n;
    WordsOfJoin(ws);
  }

  /** `strip_hotword`: the normalised text without its first word when
      that word is the hotword; the empty text when there are no words. */
  function StripHotword(text: string, hotword: string): (r: string)
    ensures r != [] ==> !IsSpace(r[0]) && !IsSpace(r[|r| - 1])
  {
    var ws := Words(NormalizeText(text));
    if ws == [] then ""
    else if ws[0] == hotword then Strip(Join(ws[1..]))
    else NormalizeText(text)
  }

  /** A blank text gives the empty text; otherwise the result holds the
      words of the normalised text, less the first exactly when it is the
      hotword, and is itself normalised. */
  lemma StripHotwordWords(text: string, hotword: string)
    ensures Blank(text) ==> StripHotword(text, hotword) == ""
    ensures
      var ws := Words(NormalizeText(text));
      Words(StripHotword(text, hotword)) == (if ws != [] && ws[0] == hotword then ws[1..] else ws)
    ensures NormalizeText(StripHotword(text, hotword)) == StripHotword(text, hotword)
  {
    var n := NormalizeText(text);
    var ws := Words(n);
    NormalizeIdempotent(text);
    WordsOfBlank(n);
    if ws == [] {
      NormalizeIdempotent("");
    } else if ws[0] == hotword {
      WordsLowered(n);
      DropFirstWord(ws);
    }
  }

  /** Dropping the first of some lower-cased words leaves a normalised
      text whose words are the rest. */
  lemma DropFirstWord(ws: seq<string>)
    requires ws != [] && AllWords(ws) && forall i :: 0 <= i < |ws| ==> Lowered(ws[i])
    ensures Strip(Join(ws[1..])) == Join(ws[1..])
    ensures Words(Join(ws[1..])) == ws[1..]
    ensures NormalizeText(Join(ws[1..])) == Join(ws[1..])
  {
    var tail := ws[1..];
    assert AllWords(tail) && forall i :: 0 <= i < |tail| ==> Lowered(tail[i]) by {
      forall i | 0 <= i < |tail| ensures IsWord(tail[i]) && Lowered(tail[i]) { assert tail[i] == ws[i + 1]; }
    }
    WordsOfJoin(tail);
    NormalizedWords(tail);
  }

  /** Joining words that are already lower-cased gives a normalised text. */
  lemma NormalizedWords(ws: seq<string>)
    requires AllWords(ws) && forall i :: 0 <= i < |ws| ==> Lowered(ws[i])
    ensures NormalizeText(Join(ws)) == Join(ws)
  {
    var j := Join(ws);
    JoinLowered(ws);
    LowerOfLowered(j);
    assert Strip(j) == j;
    WordsOfJoin(ws);
  }

  /** `s` is what remains of `whole` once some of its front is dropped. */
  predicate IsSuffix(s: seq<seq<bv8>>, whole: seq<seq<bv8>>) {
    |s| <= |whole| && whole[|whole| - |s|..] == s
  }

  lemma SuffixSnoc(s: seq<seq<bv8>>, whole: seq<seq<bv8>>, x: seq<bv8>)
    requires IsSuffix(s, whole)
    ensures IsSuffix(s + [x], whole + [x])
  {
    assert (whole + [x])[|whole| - |s|..] == whole[|whole| - |s|..] + [x];
  }

  lemma SuffixTail(s: seq<seq<bv8>>, whole: seq<seq<bv8>>)
    requires IsSuffix(s, whole) && s != []
    ensures IsSuffix(s[1..], whole)
  {
    assert whole[|whole| - |s| + 1..] == whole[|whole| - |s|..][1..];
  }

  /** The total number of bytes held in a list of chunks. */
  function TotalLen(cs: seq<seq<bv8>>): nat {
    if cs == [] then 0 else |cs[0]| + TotalLen(cs[1..])
  }

  /** `b"".join(chunks)`. */
  function Concat(cs: seq<seq<bv8>>): (b: seq<bv8>)
    ensures |b| == TotalLen(cs)
  {
    if cs == [] then [] else cs[0] + Concat(cs[1..])
  }

  /** Concatenating one more chunk appends its bytes at the end. */
  lemma {:induction false} ConcatSnoc(cs: seq<seq<bv8>>, d: seq<bv8>)
    ensures Concat(cs + [d]) == Concat(cs) + d
  {
    if cs == [] {
      assert [d][1..] == [];
    } else {
      assert (cs + [d])[1..] == cs[1..] + [d];
      ConcatSnoc(cs[1..], d);
    }
  }

  /** Byte `j` of chunk `i` sits in the concatenation after all the bytes
      of the chunks before it. */
  lemma {:induction false} ConcatAt(cs: seq<seq<bv8>>, i: nat, j: nat)
    requires i < |cs| && j < |cs[i]|
    ensures TotalLen(cs[..i]) + j < |Concat(cs)|
    ensures Concat(cs)[TotalLen(cs[..i]) + j] == cs[i][j]
  {
    if i == 0 {
      assert cs[..0] == [];
    } else {
      ConcatAt(cs[1..], i - 1, j);
      assert cs[..i][1..] == cs[1..][..i - 1];
      assert cs[..i][0] == cs[0];
    }
  }

  lemma {:induction false} TotalLenSnoc(cs: seq<seq<bv8>>, d: seq<bv8>)
    ensures TotalLen(cs + [d]) == TotalLen(cs) + |d|
  {
    if cs != [] {
      assert (cs + [d])[1..] == cs[1..] + [d];
      TotalLenSnoc(cs[1..], d);
    }
  }

  /** The chunks left once the oldest are dropped while the total exceeds
      the capacity. */
  function Evict(cs: seq<seq<bv8>>, maxBytes: int): (r: seq<seq<bv8>>)
    ensures |r| <= |cs|
    ensures r == [] || TotalLen(r) <= maxBytes
  {
    if cs != [] && TotalLen(cs) > maxBytes then Evict(cs[1..], maxBytes) else cs
  }

  /** Eviction keeps the longest suffix that fits: what remains is a
      suffix of the chunks, it fits (or nothing remains), and every longer
      suffix would not fit. */
  lemma {:induction false} EvictKeepsNewest(cs: seq<seq<bv8>>, maxBytes: int)
    ensures var r := Evict(cs, maxBytes);
      && IsSuffix(r, cs)
      && (r == [] || TotalLen(r) <= maxBytes)
      && forall k :: 0 <= k < |cs| - |r| ==> TotalLen(cs[k..]) > maxBytes
  {
    if cs != [] && TotalLen(cs) > maxBytes {
      var r := Evict(cs, maxBytes);
      EvictKeepsNewest(cs[1..], maxBytes);
      assert IsSuffix(r, cs) by {
        assert cs[1..][|cs| - 1 - |r|..] == cs[|cs| - |r|..];
      }
      forall k | 0 <= k < |cs| - |r| ensures TotalLen(cs[k..]) > maxBytes {
        if k > 0 { assert cs[k..] == cs[1..][k - 1..]; }
        else { assert cs[0..] == cs; }
      }
    }
  }

  /** A chunk no larger than the capacity survives its own append, as the
      newest chunk held. */
  lemma NewestChunkKept(cs: seq<seq<bv8>>, data: seq<bv8>, maxBytes: int)
    requires |data| <= maxBytes
    ensures var r := Evict(cs + [data], maxBytes);
      r != [] && r[|r| - 1] == data
  {
    var s := cs + [data];
    EvictKeepsNewest(s, maxBytes);
    assert s[|s| - 1..] == [data];
    assert TotalLen([data]) == |data| by { assert [data][1..] == []; }
  }

  /** `RingBuffer`: a FIFO of byte chunks with a running byte count,
      bounded by `maxBytes` through eviction of the oldest chunks. */
  class RingBuffer {
    const maxBytes: int
    /** `_chunks`, oldest first. */
    var chunks: seq<seq<bv8>>
    /** `_size_bytes`. */
    var sizeBytes: int
    /** Every non-empty chunk ever appended, oldest first. */
    ghost var appended: seq<seq<bv8>>

    /** The counter is the total length of the chunks held; those are the
        newest chunks appended; they fit the capacity unless none is held. */
    ghost predicate Valid()
      reads this
    {
      && sizeBytes == TotalLen(chunks)
      && (chunks == [] || sizeBytes <= maxBytes)
      && IsSuffix(chunks, appended)
    }

    constructor (maxBytes: int)
      ensures Valid()
      ensures this.maxBytes == maxBytes && chunks == [] && sizeBytes == 0 && appended == []
    {
      this.maxBytes := maxBytes;
      chunks := [];
      sizeBytes := 0;
      appended := [];
    }

    /** `append(data)`: empty data is ignored; otherwise the chunk goes at
        the back and the oldest chunks are dropped until the total fits. */
    method Append(data: seq<bv8>)
      requires Valid()
      modifies this
      ensures Valid()
      ensures data == [] ==> chunks == old(chunks) && sizeBytes == old(sizeBytes) && appended == old(appended)
      ensures data != [] ==> appended == old(appended) + [data] && chunks == Evict(old(chunks) + [data], maxBytes)
    {
      if data == [] {
        return;
      }
      TotalLenSnoc(chunks, data);
      SuffixSnoc(chunks, appended, data);
      chunks := chunks + [data];
      appended := appended + [data];
      sizeBytes := sizeBytes + |data|;
      while sizeBytes > maxBytes && chunks != []
        invariant sizeBytes == TotalLen(chunks)
        invariant IsSuffix(chunks, appended)
        invariant Evict(chunks, maxBytes) == Evict(old(chunks) + [data], maxBytes)
        invariant appended == old(appended) + [data]
        decreases |chunks|
      {
        var removed := chunks[0];
        SuffixTail(chunks, appended);
        chunks := chunks[1..];
        sizeBytes := sizeBytes - |removed|;
      }
    }

    /** `get_bytes()`: the chunks held, concatenated in order; as many
        bytes as the counter says. */
    method GetBytes() returns (b: seq<bv8>)
      requires Valid()
      ensures b == Concat(chunks) && |b| == sizeBytes
    {
      b := Concat(chunks);
    }

    /** `clear()`: no chunk is held and the counter is zero. */
    method Clear()
      requires Valid()
      modifies this
      ensures Valid()
      ensures chunks == [] && sizeBytes == 0 && appended == old(appended)
    {
      chunks := [];
      sizeBytes := 0;
    }
  }
}
