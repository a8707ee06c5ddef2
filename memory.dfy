/** `SQLiteMemory`: a per-session conversation log in two append-only
    tables, `memories` and `memory_vectors`, with a recency query and an
    embedding search. The tables are sequences of rows in id order; the
    embeddings service and the cosine quotient are inputs. */
module Memory {
  import opened Wrappers

  /** A row of `memories`. */
  datatype MemoryRow = MemoryRow(id: nat, sessionId: string, role: string, content: string)

  /** A row of `memory_vectors`: a copy of a `memories` row plus its
      embedding (stored as JSON text and read back with `json.loads`). */
  datatype VectorRow = VectorRow(id: nat, memoryId: nat, sessionId: string, role: string, content: string,
                                 embedding: seq<real>)

  /** An entry `{"role": ..., "content": ...}` returned by `fetch_recent`. */
  datatype Entry = Entry(role: string, content: string)

  /** What the embeddings service did with a text: returned a vector, or
      raised an exception with the given message. */
  datatype Embedding = Embedded(vector: seq<real>) | EmbedFailed(message: string)

  /** A `(score, content)` pair built by `search`. */
  datatype Scored = Scored(score: real, content: string)

  const DefaultSearchLimit: int := 6
  const DefaultCandidateLimit: int := 200

  // ---------------------------------------------------------------------
  // Sequences

  function Reversed<T>(s: seq<T>): (r: seq<T>)
    ensures |r| == |s|
    ensures forall i :: 0 <= i < |s| ==> r[i] == s[|s| - 1 - i]
  {
    if s == [] then [] else [s[|s| - 1]] + Reversed(s[..|s| - 1])
  }

  lemma ReversedTwice<T>(s: seq<T>)
    ensures Reversed(Reversed(s)) == s
  {
  }

  /** The last `n` elements of `s` (all of `s` when it is shorter). */
  function Last<T>(s: seq<T>, n: nat): (r: seq<T>)
    ensures |r| == (if n < |s| then n else |s|)
  {
    if n < |s| then s[|s| - n..] else s
  }

  /** The rows of `rows` at the positions `idx`, in the order of `idx`. */
  function Pick<T>(rows: seq<T>, idx: seq<nat>): (r: seq<T>)
    requires forall k :: 0 <= k < |idx| ==> idx[k] < |rows|
    ensures |r| == |idx| && forall k :: 0 <= k < |idx| ==> r[k] == rows[idx[k]]
  {
    seq(|idx|, k requires 0 <= k < |idx| => rows[idx[k]])
  }

  lemma PickReversed<T>(rows: seq<T>, idx: seq<nat>)
    requires forall k :: 0 <= k < |idx| ==> idx[k] < |rows|
    ensures Pick(rows, Reversed(idx)) == Reversed(Pick(rows, idx))
  {
  }

  lemma PickLast<T>(rows: seq<T>, idx: seq<nat>, n: nat)
    requires forall k :: 0 <= k < |idx| ==> idx[k] < |rows|
    ensures Pick(rows, Last(idx, n)) == Last(Pick(rows, idx), n)
  {
  }

  // ---------------------------------------------------------------------
  // Selecting a session's rows

  /** `SELECT ... WHERE session_id = ? ORDER BY id`: the positions of the
      session's rows, oldest first. */
  function SessionIndices(sessions: seq<string>, sid: string): (r: seq<nat>)
    ensures forall k :: 0 <= k < |r| ==> r[k] < |sessions| && sessions[r[k]] == sid
  {
    if sessions == [] then []
    else
      var n := |sessions| - 1;
      var init := SessionIndices(sessions[..n], sid);
      init + (if sessions[n] == sid then [n] else [])
  }

  /** The session's rows come oldest first. */
  predicate Ascending(s: seq<nat>) {
    forall k, l :: 0 <= k < l < |s| ==> s[k] < s[l]
  }

  lemma {:induction false} SessionIndicesAscending(sessions: seq<string>, sid: string)
    ensures Ascending(SessionIndices(sessions, sid))
  {
    if sessions != [] {
      var n := |sessions| - 1;
      var init := SessionIndices(sessions[..n], sid);
      SessionIndicesAscending(sessions[..n], sid);
      var r := SessionIndices(sessions, sid);
      assert r == init + (if sessions[n] == sid then [n] else []);
      forall k, l | 0 <= k < l < |r| ensures r[k] < r[l] {
        assert r[k] == init[k];
        if l < |init| { assert r[l] == init[l]; } else { assert r[l] == n && init[k] < n; }
      }
    }
  }

  /** No row of the session is missed. */
  lemma {:induction false} SessionIndicesComplete(sessions: seq<string>, sid: string, i: nat)
    requires i < |sessions| && sessions[i] == sid
    ensures i in SessionIndices(sessions, sid)
  {
    var n := |sessions| - 1;
    if i < n {
      assert sessions[..n][i] == sid;
      SessionIndicesComplete(sessions[..n], sid, i);
    }
  }

  /** `SELECT ... WHERE session_id = ? ORDER BY id DESC LIMIT ?` for a
      non-negative limit: the positions of at most `limit` of the session's
      rows, newest first. */
  function NewestIndices(sessions: seq<string>, sid: string, limit: nat): (r: seq<nat>)
    ensures |r| <= limit
    ensures forall k :: 0 <= k < |r| ==> r[k] < |sessions| && sessions[r[k]] == sid
  {
    if sessions == [] || limit == 0 then []
    else
      var n := |sessions| - 1;
      if sessions[n] == sid then [n] + NewestIndices(sessions[..n], sid, limit - 1)
      else NewestIndices(sessions[..n], sid, limit)
  }

  lemma ReversedSnoc<T>(s: seq<T>, x: T)
    ensures Reversed(s + [x]) == [x] + Reversed(s)
  {
    assert (s + [x])[..|s|] == s;
  }

  lemma LastSnoc<T>(s: seq<T>, x: T, n: nat)
    requires n > 0
    ensures Last(s + [x], n) == Last(s, n - 1) + [x]
  {
  }

  /** The newest-first query returns exactly the last `limit` of the
      session's rows, newest first. */
  lemma {:induction false} NewestAreLastOfSession(sessions: seq<string>, sid: string, limit: nat)
    ensures NewestIndices(sessions, sid, limit) == Reversed(Last(SessionIndices(sessions, sid), limit))
  {
    if sessions == [] {
    } else if limit == 0 {
      assert Last(SessionIndices(sessions, sid), limit) == [];
    } else {
      var n := |sessions| - 1;
      var init := SessionIndices(sessions[..n], sid);
      if sessions[n] == sid {
        NewestAreLastOfSession(sessions[..n], sid, limit - 1);
        LastSnoc(init, n, limit);
        ReversedSnoc(Last(init, limit - 1), n);
      } else {
        NewestAreLastOfSession(sessions[..n], sid, limit);
        assert init + [] == init;
      }
    }
  }

  function MemorySessions(rows: seq<MemoryRow>): seq<string> {
    seq(|rows|, i requires 0 <= i < |rows| => rows[i].sessionId)
  }

  function VectorSessions(rows: seq<VectorRow>): seq<string> {
    seq(|rows|, i requires 0 <= i < |rows| => rows[i].sessionId)
  }

  /** A session's rows of `memories`, oldest first. */
  function SessionRows(rows: seq<MemoryRow>, sid: string): (r: seq<MemoryRow>)
    ensures forall k :: 0 <= k < |r| ==> r[k].sessionId == sid && r[k] in rows
  {
    Pick(rows, SessionIndices(MemorySessions(rows), sid))
  }

  /** Reversing what the newest-first query returns gives the session's
      last `limit` rows, oldest first. */
  lemma RecentRows(rows: seq<MemoryRow>, sid: string, limit: nat)
    ensures Reversed(Pick(rows, NewestIndices(MemorySessions(rows), sid, limit))) == Last(SessionRows(rows, sid), limit)
  {
    var all := SessionIndices(MemorySessions(rows), sid);
    var tail := Last(all, limit);
    calc {
      Reversed(Pick(rows, NewestIndices(MemorySessions(rows), sid, limit)));
      { NewestAreLastOfSession(MemorySessions(rows), sid, limit); }
      Reversed(Pick(rows, Reversed(tail)));
      { PickReversed(rows, tail); }
      Reversed(Reversed(Pick(rows, tail)));
      { ReversedTwice(Pick(rows, tail)); }
      Pick(rows, tail);
      { PickLast(rows, all, limit); }
      Last(Pick(rows, all), limit);
    }
  }

  /** With ids counting up from 1, a session's rows come in increasing id
      order and none of them is missing. */
  lemma SessionRowsInIdOrder(rows: seq<MemoryRow>, sid: string)
    requires forall i :: 0 <= i < |rows| ==> rows[i].id == i + 1
    ensures var r := SessionRows(rows, sid);
      && (forall k, l :: 0 <= k < l < |r| ==> r[k].id < r[l].id)
      && (forall i :: 0 <= i < |rows| && rows[i].sessionId == sid ==> rows[i] in r)
  {
    var idx := SessionIndices(MemorySessions(rows), sid);
    var r := SessionRows(rows, sid);
    SessionIndicesAscending(MemorySessions(rows), sid);
    forall k, l | 0 <= k < l < |r| ensures r[k].id < r[l].id {
      assert idx[k] < idx[l];
    }
    forall i | 0 <= i < |rows| && rows[i].sessionId == sid ensures rows[i] in r {
      SessionIndicesComplete(MemorySessions(rows), sid, i);
      var k :| 0 <= k < |idx| && idx[k] == i;
      assert r[k] == rows[i];
    }
  }

  function EntriesOf(rows: seq<MemoryRow>): seq<Entry> {
    seq(|rows|, i requires 0 <= i < |rows| => Entry(rows[i].role, rows[i].content))
  }

  /** SQLite reads a negative `LIMIT` as no limit at all. */
  function SqlLimit(limit: int, rowCount: nat): nat {
    if limit < 0 then rowCount else limit
  }

  /** The search's candidate window: the session's `candidate_limit`
      newest vector rows, newest first. */
  function Candidates(rows: seq<VectorRow>, sid: string, candidateLimit: int): (r: seq<VectorRow>)
    ensures forall k :: 0 <= k < |r| ==> r[k].sessionId == sid && r[k] in rows
    ensures candidateLimit >= 0 ==> |r| <= candidateLimit
  {
    Pick(rows, NewestIndices(VectorSessions(rows), sid, SqlLimit(candidateLimit, |rows|)))
  }

  /** The candidate window is exactly the session's newest
      `candidate_limit` vector rows (all of them for a negative limit),
      newest first. */
  lemma CandidatesAreNewest(rows: seq<VectorRow>, sid: string, candidateLimit: int)
    ensures Candidates(rows, sid, candidateLimit) ==
      Reversed(Last(Pick(rows, SessionIndices(VectorSessions(rows), sid)), SqlLimit(candidateLimit, |rows|)))
  {
    var sessions := VectorSessions(rows);
    var n := SqlLimit(candidateLimit, |rows|);
    var all := SessionIndices(sessions, sid);
    NewestAreLastOfSession(sessions, sid, n);
    PickReversed(rows, Last(all, n));
    PickLast(rows, all, n);
  }

  // ---------------------------------------------------------------------
  // Scoring

  /** `_cosine_similarity`: zero when either vector is empty or either
      norm is zero; otherwise the quotient of the dot product by the two
      norms, which `ratio` stands for. `norm` stands for `_vector_norm`. */
  function Cosine(query: seq<real>, candidate: seq<real>, norm: seq<real> -> real,
                  ratio: (seq<real>, seq<real>) -> real): (r: real)
    ensures query == [] || candidate == [] || norm(query) == 0.0 || norm(candidate) == 0.0 ==> r == 0.0
    ensures query != [] && candidate != [] && norm(query) != 0.0 && norm(candidate) != 0.0 ==>
      r == ratio(query, candidate)
  {
    if query == [] || candidate == [] then 0.0
    else if norm(candidate) == 0.0 || norm(query) == 0.0 then 0.0
    else ratio(query, candidate)
  }

  /** The `scored` list before sorting: one pair per candidate, in order. */
  function ScoreAll(query: seq<real>, rows: seq<VectorRow>, norm: seq<real> -> real, ratio: (seq<real>, seq<real>) -> real): seq<Scored> {
    seq(|rows|, i requires 0 <= i < |rows| => Scored(Cosine(query, rows[i].embedding, norm, ratio), rows[i].content))
  }

  // ---------------------------------------------------------------------
  // Sorting by score, highest first, keeping ties in their order

  predicate SortedDesc(s: seq<Scored>) {
    forall i, j :: 0 <= i < j < |s| ==> s[i].score >= s[j].score
  }

  /** Puts `x` in front of the first element it is not smaller than. */
  function Insert(x: Scored, s: seq<Scored>): (r: seq<Scored>)
    ensures |r| == |s| + 1
    ensures multiset(r) == multiset(s) + multiset{x}
    ensures r[0] == x || (s != [] && r[0] == s[0])
  {
    if s == [] || x.score >= s[0].score then [x] + s
    else
      var rest := Insert(x, s[1..]);
      assert s == [s[0]] + s[1..];
      [s[0]] + rest
  }

  /** Inserting into a sorted list keeps it sorted. */
  lemma {:induction false} InsertSorted(x: Scored, s: seq<Scored>)
    requires SortedDesc(s)
    ensures SortedDesc(Insert(x, s))
  {
    if s != [] && x.score < s[0].score {
      var tail := s[1..];
      assert SortedDesc(tail) by {
        forall i, j | 0 <= i < j < |tail| ensures tail[i].score >= tail[j].score {
          assert tail[i] == s[i + 1] && tail[j] == s[j + 1];
        }
      }
      InsertSorted(x, tail);
      var rest := Insert(x, tail);
      var r := Insert(x, s);
      assert r == [s[0]] + rest;
      assert rest[0].score <= s[0].score;
      forall i, j | 0 <= i < j < |r| ensures r[i].score >= r[j].score {
        if i == 0 {
          assert r[j] == rest[j - 1];
          if j > 1 { assert rest[0].score >= rest[j - 1].score; }
        } else {
          assert r[i] == rest[i - 1] && r[j] == rest[j - 1];
        }
      }
    }
  }

  /** `scored.sort(key=score, reverse=True)`: a stable sort, highest score
      first. */
  function SortDesc(s: seq<Scored>): (r: seq<Scored>)
    ensures SortedDesc(r)
    ensures multiset(r) == multiset(s)
    ensures |r| == |s|
  {
    if s == [] then []
    else
      assert s == [s[0]] + s[1..];
      InsertSorted(s[0], SortDesc(s[1..]));
      Insert(s[0], SortDesc(s[1..]))
  }

  /** The elements of `s` with score `v`, in order. */
  function WithScore(s: seq<Scored>, v: real): seq<Scored> {
    if s == [] then [] else (if s[0].score == v then [s[0]] else []) + WithScore(s[1..], v)
  }

  lemma {:induction false} InsertStable(x: Scored, s: seq<Scored>, v: real)
    ensures WithScore(Insert(x, s), v) == (if x.score == v then [x] else []) + WithScore(s, v)
  {
    if s == [] || x.score >= s[0].score {
      assert ([x] + s)[1..] == s;
    } else {
      InsertStable(x, s[1..], v);
      assert ([s[0]] + Insert(x, s[1..]))[1..] == Insert(x, s[1..]);
    }
  }

  /** Sorting keeps the elements of equal score in their original order:
      the sort is stable. */
  lemma {:induction false} SortDescStable(s: seq<Scored>, v: real)
    ensures WithScore(SortDesc(s), v) == WithScore(s, v)
  {
    if s != [] {
      SortDescStable(s[1..], v);
      InsertStable(s[0], SortDesc(s[1..]), v);
    }
  }

  /** The contents of the first `limit` pairs. */
  function TopContents(s: seq<Scored>, limit: nat): (r: seq<string>)
    ensures |r| == (if limit < |s| then limit else |s|)
    ensures forall k :: 0 <= k < |r| ==> r[k] == s[k].content
  {
    var n := if limit < |s| then limit else |s|;
    seq(n, k requires 0 <= k < n => s[k].content)
  }

  /** What `search` returns when it gets as far as scoring. */
  function Ranked(rows: seq<VectorRow>, sid: string, query: seq<real>, limit: nat, candidateLimit: int,
                  norm: seq<real> -> real, ratio: (seq<real>, seq<real>) -> real): seq<string>
  {
    TopContents(SortDesc(ScoreAll(query, Candidates(rows, sid, candidateLimit), norm, ratio)), limit)
  }

  /** Every content `search` ranks comes from one of the session's vector
      rows, and at most `limit` of them are returned. */
  lemma RankedFromSession(rows: seq<VectorRow>, sid: string, query: seq<real>, limit: nat, candidateLimit: int,
                          norm: seq<real> -> real, ratio: (seq<real>, seq<real>) -> real)
    ensures var r := Ranked(rows, sid, query, limit, candidateLimit, norm, ratio);
      && |r| <= limit
      && (forall k :: 0 <= k < |r| ==> exists i :: 0 <= i < |rows| && rows[i].sessionId == sid && rows[i].content == r[k])
  {
    var cands := Candidates(rows, sid, candidateLimit);
    var scored := ScoreAll(query, cands, norm, ratio);
    var sorted := SortDesc(scored);
    var r := TopContents(sorted, limit);
    forall k | 0 <= k < |r|
      ensures exists i :: 0 <= i < |rows| && rows[i].sessionId == sid && rows[i].content == r[k]
    {
      assert sorted[k] in multiset(scored);
      var j :| 0 <= j < |scored| && scored[j] == sorted[k];
      var i :| 0 <= i < |rows| && rows[i] == cands[j];
      assert rows[i].content == r[k];
    }
  }

  /** The contents `search` ranks are, in order, those of the first pairs
      of the scored candidates arranged by score, highest first: the best
      `limit` candidates, best first. */
  lemma RankedInScoreOrder(rows: seq<VectorRow>, sid: string, query: seq<real>, limit: nat, candidateLimit: int,
                           norm: seq<real> -> real, ratio: (seq<real>, seq<real>) -> real)
    ensures var r := Ranked(rows, sid, query, limit, candidateLimit, norm, ratio);
      var scored := ScoreAll(query, Candidates(rows, sid, candidateLimit), norm, ratio);
      exists s: seq<Scored> ::
        && SortedDesc(s) && multiset(s) == multiset(scored)
        && |r| == (if limit < |s| then limit else |s|)
        && forall k :: 0 <= k < |r| ==> r[k] == s[k].content
  {
    var scored := ScoreAll(query, Candidates(rows, sid, candidateLimit), norm, ratio);
    var s := SortDesc(scored);
    assert SortedDesc(s) && multiset(s) == multiset(scored);
  }

  // ---------------------------------------------------------------------
  // The store

  /** `memory_vectors` row `v` copies `memories` row `memoryId` and has an
      embedding. */
  predicate Linked(v: VectorRow, memories: seq<MemoryRow>) {
    && 1 <= v.memoryId <= |memories|
    && memories[v.memoryId - 1].sessionId == v.sessionId
    && memories[v.memoryId - 1].role == v.role
    && memories[v.memoryId - 1].content == v.content
    && v.embedding != []
  }

  /** Swaps the array end for end: `rows.reverse()`. */
  method ReverseInPlace<T>(a: array<T>)
    modifies a
    ensures a[..] == Reversed(old(a[..]))
  {
    var i := 0;
    while i < a.Length / 2
      invariant 0 <= i <= a.Length / 2
      invariant forall k :: 0 <= k < i ==> a[k] == old(a[a.Length - 1 - k]) && a[a.Length - 1 - k] == old(a[k])
      invariant forall k :: i <= k < a.Length - i ==> a[k] == old(a[k])
    {
      a[i], a[a.Length - 1 - i] := a[a.Length - 1 - i], a[i];
      i := i + 1;
    }
  }

  class SQLiteMemory {
    /** The `memories` table, in id order. */
    var memories: seq<MemoryRow>
    /** The `memory_vectors` table, in id order. */
    var vectors: seq<VectorRow>

    /** Ids count up from 1 in both tables, no logged content is empty,
        and every vector row copies an existing log row. */
    ghost predicate Valid()
      reads this
    {
      && (forall i :: 0 <= i < |memories| ==> memories[i].id == i + 1 && memories[i].content != "")
      && (forall i :: 0 <= i < |vectors| ==> vectors[i].id == i + 1 && Linked(vectors[i], memories))
    }

    /** A fresh database: both tables created empty. */
    constructor ()
      ensures Valid() && memories == [] && vectors == []
    {
      memories := [];
      vectors := [];
    }

    /** `append(session_id, role, content)`, with the embeddings service's
        answer for `content`. The insert and the embedding run in one
        transaction, so a failing embedding rolls the log row back and the
        failure's message is returned. */
    method Append(sessionId: string, role: string, content: string, embedding: Embedding)
      returns (failure: Option<string>)
      requires Valid()
      modifies this
      ensures Valid()
      ensures content == "" ==> failure == None && memories == old(memories) && vectors == old(vectors)
      ensures content != "" && embedding.EmbedFailed? ==>
        failure == Some(embedding.message) && memories == old(memories) && vectors == old(vectors)
      ensures content != "" && embedding.Embedded? ==>
        && failure == None
        && memories == old(memories) + [MemoryRow(|old(memories)| + 1, sessionId, role, content)]
        && vectors == old(vectors) +
             (if embedding.vector == [] then []
              else [VectorRow(|old(vectors)| + 1, |old(memories)| + 1, sessionId, role, content, embedding.vector)])
    {
      if content == "" {
        return None;
      }
      var saved := memories;
      var memoryId := |memories| + 1;
      memories := memories + [MemoryRow(memoryId, sessionId, role, content)];
      match embedding
      case EmbedFailed(m) =>
        memories := saved;
        return Some(m);
      case Embedded(vector) =>
        if vector != [] {
          vectors := vectors + [VectorRow(|vectors| + 1, memoryId, sessionId, role, content, vector)];
        }
        return None;
    }

    /** `fetch_recent(session_id, limit)`: the session's `limit` newest log
        entries, oldest first; nothing for a limit that is not positive. */
    method FetchRecent(sessionId: string, limit: int) returns (entries: seq<Entry>)
      requires Valid()
      ensures limit <= 0 ==> entries == []
      ensures limit > 0 ==> entries == EntriesOf(Last(SessionRows(memories, sessionId), limit))
    {
      if limit <= 0 {
        return [];
      }
      var mems := memories;
      var idx := NewestIndices(MemorySessions(mems), sessionId, limit);
      var rows := new MemoryRow[|idx|](k requires 0 <= k < |idx| => mems[idx[k]]);
      assert rows[..] == Pick(mems, idx);
      ReverseInPlace(rows);
      var fetched := rows[..];
      RecentRows(mems, sessionId, limit);
      entries := EntriesOf(fetched);
    }

    /** `search(session_id, query, limit, candidate_limit)`, with the
        embeddings service's answer for `query` and the cosine quotient
        `norm` and `ratio`: nothing for an empty query, a limit that is not positive
        or an empty query embedding; otherwise the contents of the
        session's newest candidates, best score first, at most `limit`. */
    method Search(sessionId: string, query: string, limit: int, candidateLimit: int,
                  queryEmbedding: Embedding, norm: seq<real> -> real, ratio: (seq<real>, seq<real>) -> real)
      returns (r: Result<seq<string>, string>)
      requires Valid()
      ensures query == "" || limit <= 0 ==> r == Ok([])
      ensures query != "" && limit > 0 && queryEmbedding.EmbedFailed? ==> r == Err(queryEmbedding.message)
      ensures query != "" && limit > 0 && queryEmbedding == Embedded([]) ==> r == Ok([])
      ensures query != "" && limit > 0 && queryEmbedding.Embedded? && queryEmbedding.vector != [] ==>
        r == Ok(Ranked(vectors, sessionId, queryEmbedding.vector, limit, candidateLimit, norm, ratio))
    {
      if query == "" || limit <= 0 {
        return Ok([]);
      }
      if queryEmbedding.EmbedFailed? {
        return Err(queryEmbedding.message);
      }
      var q := queryEmbedding.vector;
      if q == [] {
        return Ok([]);
      }
      var rows := Candidates(vectors, sessionId, candidateLimit);
      var scored: seq<Scored> := [];
      var i := 0;
      while i < |rows|
        invariant 0 <= i <= |rows|
        invariant scored == ScoreAll(q, rows[..i], norm, ratio)
      {
        scored := scored + [Scored(Cosine(q, rows[i].embedding, norm, ratio), rows[i].content)];
        i := i + 1;
      }
      assert rows[..i] == rows;
      scored := SortDesc(scored);
      r := Ok(TopContents(scored, limit));
    }
  }
}
