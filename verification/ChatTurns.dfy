/** The backwards scan of chatmemory/session.go: which older turns are indexed for recall. */
module ChatTurns {
  import opened ChatHistory
  import opened ChunkKeys
  import opened Utf8
  import opened Wrappers

  datatype Limits = Limits(maxTokens: nat, maxTurns: nat, maxIndexedTurns: nat, maxIndexBytes: nat, maxTurnBytes: nat)

  /** messages[start..end], the number-th turn of the conversation. */
  datatype Turn = Turn(start: nat, end: nat, number: nat)

  const FRAME := 16

  // Turns

  function Users(ms: seq<Message>): nat {
    if ms == [] then 0 else Users(ms[..|ms| - 1]) + if ms[|ms| - 1].role == User then 1 else 0
  }

  /** One user message and everything after it up to the next. */
  predicate IsTurn(ms: seq<Message>, t: Turn) {
    && t.start < t.end <= |ms| && ms[t.start].role == User
    && (forall i | t.start < i < t.end :: ms[i].role != User)
    && t.number == Users(ms[..t.start + 1])
  }

  /** Where the scan stands after these turns. */
  function Reached(boundary: nat, turns: seq<Turn>): nat {
    if turns == [] then boundary else turns[|turns| - 1].start
  }

  /** Consecutive turns going back from the boundary, each starting where the one before it began. */
  ghost predicate Chain(ms: seq<Message>, boundary: nat, turns: seq<Turn>) {
    forall i: nat {:trigger Link(ms, boundary, turns, i)} | i < |turns| :: Link(ms, boundary, turns, i)
  }

  ghost predicate Link(ms: seq<Message>, boundary: nat, turns: seq<Turn>, i: nat)
    requires i < |turns|
  {
    IsTurn(ms, turns[i]) && turns[i].end == if i == 0 then boundary else turns[i - 1].start
  }

  lemma {:induction false} UsersMonotone(ms: seq<Message>, i: nat, j: nat)
    requires i <= j <= |ms|
    ensures Users(ms[..i]) <= Users(ms[..j])
    ensures Users(ms[..i]) == Users(ms[..j]) <==> forall k | i <= k < j :: ms[k].role != User
    decreases j
  {
    if i < j {
      UsersMonotone(ms, i, j - 1);
      assert ms[..j][..j - 1] == ms[..j - 1];
    }
  }

  /** Turns never share a message or a number. */
  lemma TurnsDisjoint(ms: seq<Message>, s: Turn, t: Turn)
    requires IsTurn(ms, s) && IsTurn(ms, t) && s.start < t.start
    ensures s.end <= t.start && s.number < t.number
  {
    UsersMonotone(ms, s.start + 1, t.start);
    UsersMonotone(ms, t.start, t.start + 1);
  }

  // Eligible turns

  function Size(ms: seq<Message>): nat {
    if ms == [] then 0 else Size(ms[..|ms| - 1]) + |ms[|ms| - 1].content| + FRAME
  }

  predicate Plain(m: Message) {
    m.images == [] && m.calls == [] && m.toolCallId == [] && m.name == []
  }

  /** A user message answered by plain assistant messages only, within the size limit. */
  predicate Eligible(turn: seq<Message>, limits: Limits) {
    && |turn| >= 2 && turn[0].role == User
    && (forall i | 0 < i < |turn| :: turn[i].role == Assistant)
    && (forall i | 0 <= i < |turn| :: Plain(turn[i]))
    && Size(turn) <= limits.maxTurnBytes
  }

  lemma {:induction false} SizeMonotone(ms: seq<Message>, i: nat)
    requires i <= |ms|
    ensures Size(ms[..i]) <= Size(ms)
    decreases |ms| - i
  {
    if i < |ms| {
      SizeMonotone(ms, i + 1);
      assert ms[..i + 1][..i] == ms[..i];
    } else {
      assert ms[..i] == ms;
    }
  }

  /** The size test message by message, against what is left, is the test on the whole turn. */
  method Check(turn: seq<Message>, limits: Limits) returns (size: nat, eligible: bool)
    requires |turn| >= 2 && turn[0].role == User && turn[|turn| - 1].role == Assistant
    ensures eligible <==> Eligible(turn, limits)
    ensures eligible ==> size == Size(turn)
  {
    size, eligible := 0, true;
    for j := 0 to |turn|
      invariant size == Size(turn[..j]) <= limits.maxTurnBytes || j == 0
      invariant size == Size(turn[..j])
      invariant forall i | 0 < i < j :: turn[i].role == Assistant
      invariant forall i | 0 <= i < j :: Plain(turn[i])
      invariant j > 0 ==> size <= limits.maxTurnBytes
    {
      var m := turn[j];
      assert turn[..j + 1][..j] == turn[..j];
      SizeMonotone(turn, j + 1);
      if (j == 0 && m.role != User) || (j > 0 && m.role != Assistant) || !Plain(m)
         || |m.content| > limits.maxTurnBytes - size - FRAME
      {
        return size, false;
      }
      size := size + |m.content| + FRAME;
    }
    assert turn[..|turn|] == turn;
  }

  // The scan

  /** Whether a turn is indexed when newer turns have already used `used` bytes. */
  predicate Takes(ms: seq<Message>, t: Turn, limits: Limits, used: nat)
    requires t.start <= t.end <= |ms|
  {
    Eligible(ms[t.start..t.end], limits) && used + Size(ms[t.start..t.end]) <= limits.maxIndexBytes
  }

  predicate Bounded(ms: seq<Message>, turns: seq<Turn>) {
    forall i | 0 <= i < |turns| :: turns[i].start <= turns[i].end <= |ms|
  }

  /** The turns the scan indexes out of the first n: greedily, newest first, within both limits. */
  function Indexed(ms: seq<Message>, turns: seq<Turn>, limits: Limits, n: nat): seq<Turn>
    requires n <= |turns| && Bounded(ms, turns)
  {
    if n == 0 then []
    else
      var newer := Indexed(ms, turns, limits, n - 1);
      if |newer| < limits.maxIndexedTurns && Takes(ms, turns[n - 1], limits, Used(ms, newer)) then newer + [turns[n - 1]]
      else newer
  }

  function Used(ms: seq<Message>, turns: seq<Turn>): nat {
    if turns == [] then 0
    else
      var t := turns[|turns| - 1];
      Used(ms, turns[..|turns| - 1]) + if t.start <= t.end <= |ms| then Size(ms[t.start..t.end]) else 0
  }

  /** Newest first, sharing no message and no number. */
  ghost predicate Apart(turns: seq<Turn>) {
    forall i, j | 0 <= i < j < |turns| :: turns[j].end <= turns[i].start && turns[j].number < turns[i].number
  }

  lemma ChainInit(ms: seq<Message>, boundary: nat, turns: seq<Turn>)
    requires Chain(ms, boundary, turns) && turns != []
    ensures Chain(ms, boundary, turns[..|turns| - 1])
    ensures IsTurn(ms, turns[|turns| - 1]) && turns[|turns| - 1].end == Reached(boundary, turns[..|turns| - 1])
  {
    hide IsTurn;
    var init := turns[..|turns| - 1];
    forall i: nat | i < |init| ensures Link(ms, boundary, init, i) {
      assert Link(ms, boundary, turns, i);
    }
    assert Link(ms, boundary, turns, |init|);
  }

  lemma {:induction false} ChainApart(ms: seq<Message>, boundary: nat, turns: seq<Turn>)
    requires Chain(ms, boundary, turns)
    ensures Apart(turns)
    ensures forall i | 0 <= i < |turns| ::
              IsTurn(ms, turns[i]) && turns[i].end <= boundary && Reached(boundary, turns) <= turns[i].start
  {
    if turns != [] {
      ChainInit(ms, boundary, turns);
      var init, last := turns[..|turns| - 1], turns[|turns| - 1];
      ChainApart(ms, boundary, init);
      assert last.start < last.end;
      hide IsTurn, Chain;
      forall i | 0 <= i < |init| ensures last.number < init[i].number && last.end <= init[i].start {
        TurnsDisjoint(ms, last, init[i]);
      }
      assert turns == init + [last];
    }
  }

  /** Every turn but the newest ends where the next user message begins, so it is whole. */
  lemma ChainWhole(ms: seq<Message>, boundary: nat, turns: seq<Turn>, i: nat)
    requires Chain(ms, boundary, turns) && i < |turns| && boundary <= |ms|
    requires boundary == |ms| || ms[boundary].role == User
    ensures turns[i].end <= |ms| && (turns[i].end == |ms| || ms[turns[i].end].role == User)
  {
    assert Link(ms, boundary, turns, i);
    if i > 0 {
      assert Link(ms, boundary, turns, i - 1);
    }
  }

  /** The scan stays within its count and its bytes. */
  lemma {:induction false} IndexedWithin(ms: seq<Message>, turns: seq<Turn>, limits: Limits, n: nat)
    requires n <= |turns| && Bounded(ms, turns)
    ensures |Indexed(ms, turns, limits, n)| <= limits.maxIndexedTurns
    ensures Used(ms, Indexed(ms, turns, limits, n)) <= limits.maxIndexBytes
  {
    if n > 0 {
      IndexedWithin(ms, turns, limits, n - 1);
      hide Eligible, Indexed, Used, Size;
    }
  }

  /** The turns taken are eligible ones among those the scan saw. */
  lemma IndexedEligible(ms: seq<Message>, turns: seq<Turn>, limits: Limits, n: nat, t: Turn)
    requires n <= |turns| && Bounded(ms, turns) && t in Indexed(ms, turns, limits, n)
    ensures t in turns[..n] && t.start <= t.end <= |ms| && Eligible(ms[t.start..t.end], limits)
    ensures t.start + 2 <= t.end && ms[t.start].role == User && Size(ms[t.start..t.end]) <= limits.maxTurnBytes
    ensures forall i | t.start <= i < t.end ::
              && (i > t.start ==> ms[i].role == Assistant)
              && ms[i].images == [] && ms[i].calls == [] && ms[i].toolCallId == [] && ms[i].name == []
  {
    hide Indexed, Bounded, Size;
    IndexedFits(ms, turns, limits, n, t);
    var turn := ms[t.start..t.end];
    forall i | t.start <= i < t.end ensures (i > t.start ==> ms[i].role == Assistant) && Plain(ms[i]) {
      assert ms[i] == turn[i - t.start];
    }
  }

  lemma {:induction false} IndexedFits(ms: seq<Message>, turns: seq<Turn>, limits: Limits, n: nat, t: Turn)
    requires n <= |turns| && Bounded(ms, turns) && t in Indexed(ms, turns, limits, n)
    ensures t in turns[..n] && t.start <= t.end <= |ms| && Eligible(ms[t.start..t.end], limits)
  {
    var last := turns[n - 1];
    hide Indexed, Used, Eligible;
    assert turns[..n] == turns[..n - 1] + [last];
    if t in Indexed(ms, turns, limits, n - 1) {
      IndexedFits(ms, turns, limits, n - 1, t);
    }
  }

  lemma {:induction false} IndexedApart(ms: seq<Message>, turns: seq<Turn>, limits: Limits, n: nat)
    requires n <= |turns| && Bounded(ms, turns) && Apart(turns)
    ensures Apart(Indexed(ms, turns, limits, n))
  {
    if n > 0 {
      IndexedApart(ms, turns, limits, n - 1);
      var newer, t := Indexed(ms, turns, limits, n - 1), turns[n - 1];
      hide Takes, Eligible, Indexed, Used, Size, Bounded;
      forall u | u in newer ensures t.end <= u.start && t.number < u.number {
        IndexedFits(ms, turns, limits, n - 1, u);
        var k :| 0 <= k < n - 1 && turns[k] == u;
      }
      hide Apart;
    }
  }

  // Records and their IDs

  /** One indexed turn: its ID, and its texts, the first the user's and the rest the assistant's. */
  datatype Record = Record(id: string, turn: Turn, hash: string, texts: seq<Bytes>)

  function TurnId(number: nat, hash: string): string {
    "history:" + (Itoa(number) + ([':'] + if |hash| >= 12 then hash[..12] else hash))
  }

  /** Turn IDs never collide, whatever the hashes are: the number ends at the first colon after the prefix. */
  lemma TurnIdInjective(m: nat, g: string, n: nat, h: string)
    requires TurnId(m, g) == TurnId(n, h)
    ensures m == n
  {
    var prefix, a, b := "history:", Itoa(m), Itoa(n);
    var x, y := [':'] + (if |g| >= 12 then g[..12] else g), [':'] + (if |h| >= 12 then h[..12] else h);
    ItoaDigits(m);
    ItoaDigits(n);
    assert TurnId(m, g)[|prefix|..] == a + x && TurnId(n, h)[|prefix|..] == b + y;
    FirstColon(a, x, b, y);
    ItoaInjective(m, n);
  }

  lemma FirstColon(a: string, x: string, b: string, y: string)
    requires a + x == b + y && x != [] && y != [] && x[0] == y[0] == ':'
    requires (forall i | 0 <= i < |a| :: a[i] != ':') && (forall i | 0 <= i < |b| :: b[i] != ':')
    ensures a == b
  {
    var s := a + x;
    assert s[|a|] == ':' && s[|b|] == ':';
    assert forall i | 0 <= i < |a| :: s[i] == a[i];
    assert forall i | 0 <= i < |b| :: s[i] == b[i];
    assert |a| == |b|;
    assert a == s[..|a|] && b == s[..|b|];
  }

  function RecordOf(ms: seq<Message>, t: Turn, fingerprint: seq<Message> -> string): Record
    requires t.start <= t.end <= |ms|
  {
    var hash := fingerprint(ms[t.start..t.end]);
    Record(TurnId(t.number, hash), t, hash, seq(t.end - t.start, i requires 0 <= i < t.end - t.start => ms[t.start + i].content))
  }

  ghost predicate RecordsOf(ms: seq<Message>, turns: seq<Turn>, fingerprint: seq<Message> -> string, docs: seq<Record>) {
    && |docs| == |turns|
    && forall i | 0 <= i < |turns| :: turns[i].start <= turns[i].end <= |ms| && docs[i] == RecordOf(ms, turns[i], fingerprint)
  }

  /** Records of turns that are apart have different IDs. */
  lemma DistinctIds(ms: seq<Message>, turns: seq<Turn>, fingerprint: seq<Message> -> string, docs: seq<Record>)
    requires RecordsOf(ms, turns, fingerprint, docs) && Apart(turns)
    ensures forall i, j | 0 <= i < j < |docs| :: docs[i].id != docs[j].id
  {
    hide TurnId;
    forall i, j | 0 <= i < j < |docs| ensures docs[i].id != docs[j].id {
      if docs[i].id == docs[j].id {
        TurnIdInjective(turns[i].number, docs[i].hash, turns[j].number, docs[j].hash);
      }
    }
  }

  /** Over the whole scan: the indexed turns share no message, and their records have different IDs. */
  lemma ScanIds(ms: seq<Message>, boundary: nat, turns: seq<Turn>, limits: Limits, fingerprint: seq<Message> -> string, docs: seq<Record>)
    requires Chain(ms, boundary, turns) && Bounded(ms, turns)
    requires RecordsOf(ms, Indexed(ms, turns, limits, |turns|), fingerprint, docs)
    ensures Apart(Indexed(ms, turns, limits, |turns|))
    ensures forall i, j | 0 <= i < j < |docs| :: docs[i].id != docs[j].id
  {
    ChainApart(ms, boundary, turns);
    IndexedApart(ms, turns, limits, |turns|);
    DistinctIds(ms, Indexed(ms, turns, limits, |turns|), fingerprint, docs);
  }

  /** The end of the scan: no user message is left, or the index is full. */
  ghost predicate Finished(ms: seq<Message>, boundary: nat, turns: seq<Turn>, limits: Limits, count: nat)
    requires Reached(boundary, turns) <= |ms|
  {
    count >= limits.maxIndexedTurns || forall i | 0 <= i < Reached(boundary, turns) :: ms[i].role != User
  }

  method CountUsers(ms: seq<Message>, n: nat) returns (ordinal: nat)
    requires n <= |ms|
    ensures ordinal == Users(ms[..n])
  {
    ordinal := 0;
    for i := 0 to n
      invariant ordinal == Users(ms[..i])
    {
      assert ms[..i + 1][..i] == ms[..i];
      if ms[i].role == User {
        ordinal := ordinal + 1;
      }
    }
  }

  /** The last user message before `end`, if there is one. */
  method LastUser(ms: seq<Message>, end: nat) returns (start: int)
    requires 0 < end <= |ms|
    ensures -1 <= start < end
    ensures start >= 0 ==> ms[start].role == User
    ensures forall i | start < i < end :: ms[i].role != User
  {
    start := end - 1;
    while start >= 0 && ms[start].role != User
      invariant -1 <= start < end
      invariant forall i | start < i < end :: ms[i].role != User
    {
      start := start - 1;
    }
  }

  /** The scan loop: the records of the turns to index, newest first, and the map by ID. */
  method Scan(ms: seq<Message>, boundary: nat, limits: Limits, fingerprint: seq<Message> -> string)
    returns (docs: seq<Record>, records: map<string, Record>, ghost turns: seq<Turn>)
    requires boundary <= |ms|
    ensures Chain(ms, boundary, turns) && Reached(boundary, turns) <= |ms| && Bounded(ms, turns)
    ensures RecordsOf(ms, Indexed(ms, turns, limits, |turns|), fingerprint, docs)
    ensures Finished(ms, boundary, turns, limits, |docs|)
    ensures Listed(docs, records) && |records| == |docs|
  {
    var ordinal := CountUsers(ms, boundary);
    var end, used := boundary, 0;
    docs, records, turns := [], map[], [];
    NothingScanned(ms, boundary, limits, fingerprint);
    hide *;
    while end > 0 && |records| < limits.maxIndexedTurns
      invariant end <= |ms| && end == Reached(boundary, turns) && ordinal == Users(ms[..end])
      invariant Chain(ms, boundary, turns) && Bounded(ms, turns)
      invariant RecordsOf(ms, Indexed(ms, turns, limits, |turns|), fingerprint, docs)
      invariant used == Used(ms, Indexed(ms, turns, limits, |turns|)) <= limits.maxIndexBytes
      invariant Listed(docs, records) && |records| == |docs|
      decreases end
    {
      var start := LastUser(ms, end);
      if start < 0 {
        return;
      }
      var t := Turn(start, end, ordinal);
      ScanNext(ms, boundary, turns, limits, fingerprint, docs, used, t);
      docs, records, used := ScanTurn(ms, boundary, turns, limits, fingerprint, docs, records, used, t);
      turns := turns + [t];
      end, ordinal := start, ordinal - 1;
    }
  }

  /** One more turn of the scan, taken or passed over. */
  lemma ScanNext(ms: seq<Message>, boundary: nat, turns: seq<Turn>, limits: Limits, fingerprint: seq<Message> -> string,
                 docs: seq<Record>, used: nat, t: Turn)
    requires boundary <= |ms| && Chain(ms, boundary, turns) && Bounded(ms, turns) && t.end == Reached(boundary, turns) <= |ms|
    requires t.start < t.end && ms[t.start].role == User && (forall i | t.start < i < t.end :: ms[i].role != User)
    requires t.number == Users(ms[..t.end]) && |docs| < limits.maxIndexedTurns
    requires RecordsOf(ms, Indexed(ms, turns, limits, |turns|), fingerprint, docs)
    requires used == Used(ms, Indexed(ms, turns, limits, |turns|))
    ensures Chain(ms, boundary, turns + [t]) && Bounded(ms, turns + [t]) && Reached(boundary, turns + [t]) == t.start
    ensures t.number >= 1 && Users(ms[..t.start]) == t.number - 1
    ensures var next := Indexed(ms, turns + [t], limits, |turns| + 1);
            if Takes(ms, t, limits, used) then
              && RecordsOf(ms, next, fingerprint, docs + [RecordOf(ms, t, fingerprint)])
              && Used(ms, next) == used + Size(ms[t.start..t.end])
              && forall i | 0 <= i < |docs| :: docs[i].id != RecordOf(ms, t, fingerprint).id
            else RecordsOf(ms, next, fingerprint, docs) && Used(ms, next) == used
  {
    hide Chain, Bounded, Reached, Users, Indexed, Used, Takes, Size, RecordOf, Eligible;
    NextTurn(ms, boundary, turns, t);
    NextIndexed(ms, turns, limits, t);
    NewNumber(ms, boundary, turns + [t], limits);
    assert |docs| == |Indexed(ms, turns, limits, |turns|)|;
    hide RecordsOf;
    ListNew(ms, Indexed(ms, turns, limits, |turns|), fingerprint, docs, t);
  }

  lemma NothingScanned(ms: seq<Message>, boundary: nat, limits: Limits, fingerprint: seq<Message> -> string)
    requires boundary <= |ms|
    ensures Chain(ms, boundary, []) && Bounded(ms, []) && Reached(boundary, []) == boundary
    ensures Indexed(ms, [], limits, 0) == [] && Used(ms, []) == 0
    ensures RecordsOf(ms, [], fingerprint, []) && Listed([], map[])
  {
  }

  /** One turn of the scan: its record is listed when it is eligible and fits. */
  method ScanTurn(ms: seq<Message>, ghost boundary: nat, ghost turns: seq<Turn>, limits: Limits, fingerprint: seq<Message> -> string,
                  docs: seq<Record>, records: map<string, Record>, used: nat, t: Turn)
    returns (docs': seq<Record>, records': map<string, Record>, used': nat)
    requires t.start < t.end <= |ms| && ms[t.start].role == User && used <= limits.maxIndexBytes
    requires Bounded(ms, turns + [t]) && Listed(docs, records) && |records| == |docs|
    requires var next := Indexed(ms, turns + [t], limits, |turns| + 1);
             if Takes(ms, t, limits, used) then
               && RecordsOf(ms, next, fingerprint, docs + [RecordOf(ms, t, fingerprint)])
               && Used(ms, next) == used + Size(ms[t.start..t.end])
               && forall i | 0 <= i < |docs| :: docs[i].id != RecordOf(ms, t, fingerprint).id
             else RecordsOf(ms, next, fingerprint, docs) && Used(ms, next) == used
    ensures var next := Indexed(ms, turns + [t], limits, |turns| + 1);
            RecordsOf(ms, next, fingerprint, docs') && used' == Used(ms, next) <= limits.maxIndexBytes
    ensures Listed(docs', records') && |records'| == |docs'|
  {
    hide *;
    docs', records', used' := docs, records, used;
    var record, size := Consider(ms, t, limits, used, fingerprint);
    if record.Some? {
      ListMore(docs, records, record.value);
      docs' := docs + [record.value];
      records', used' := records[record.value.id := record.value], used + size;
    }
  }

  /** The body of the scan loop for one turn: its record, when it is eligible and fits. */
  method Consider(ms: seq<Message>, t: Turn, limits: Limits, used: nat, fingerprint: seq<Message> -> string)
    returns (record: Option<Record>, size: nat)
    requires t.start < t.end <= |ms| && ms[t.start].role == User && used <= limits.maxIndexBytes
    ensures record == if Takes(ms, t, limits, used) then Some(RecordOf(ms, t, fingerprint)) else None
    ensures record.Some? ==> size == Size(ms[t.start..t.end]) && used + size <= limits.maxIndexBytes
  {
    size := 0;
    var turn := ms[t.start..t.end];
    if |turn| < 2 || turn[|turn| - 1].role != Assistant {
      return None, size;
    }
    var eligible;
    size, eligible := Check(turn, limits);
    if !eligible || size > limits.maxIndexBytes - used {
      return None, size;
    }
    record := Some(RecordOf(ms, t, fingerprint));
  }

  lemma ListMore(docs: seq<Record>, records: map<string, Record>, r: Record)
    requires Listed(docs, records) && forall i | 0 <= i < |docs| :: docs[i].id != r.id
    ensures Listed(docs + [r], records[r.id := r]) && |records[r.id := r]| == |records| + 1
  {
    forall id | id in records ensures id != r.id {
      var i :| 0 <= i < |docs| && docs[i] == records[id];
    }
  }

  /** The map holds every record under its ID. */
  ghost predicate Listed(docs: seq<Record>, records: map<string, Record>) {
    && (forall i | 0 <= i < |docs| :: docs[i].id in records && records[docs[i].id] == docs[i])
    && (forall id | id in records :: records[id] in docs && records[id].id == id)
  }

  lemma NextTurn(ms: seq<Message>, boundary: nat, turns: seq<Turn>, t: Turn)
    requires boundary <= |ms| && Chain(ms, boundary, turns) && Bounded(ms, turns) && t.end == Reached(boundary, turns) <= |ms|
    requires t.start < t.end && ms[t.start].role == User && (forall i | t.start < i < t.end :: ms[i].role != User)
    requires t.number == Users(ms[..t.end])
    ensures Chain(ms, boundary, turns + [t]) && Bounded(ms, turns + [t]) && Reached(boundary, turns + [t]) == t.start
    ensures t.number >= 1 && Users(ms[..t.start]) == t.number - 1
  {
    UsersMonotone(ms, t.start + 1, t.end);
    assert ms[..t.start + 1][..t.start] == ms[..t.start];
    assert IsTurn(ms, t);
    hide IsTurn, Users;
    var next := turns + [t];
    forall i: nat | i < |next| ensures Link(ms, boundary, next, i) {
      if i < |turns| {
        assert Link(ms, boundary, turns, i);
      }
    }
  }

  lemma NextIndexed(ms: seq<Message>, turns: seq<Turn>, limits: Limits, t: Turn)
    requires Bounded(ms, turns) && t.start <= t.end <= |ms|
    ensures Bounded(ms, turns + [t])
    ensures Indexed(ms, turns + [t], limits, |turns|) == Indexed(ms, turns, limits, |turns|)
    ensures var taken := Indexed(ms, turns, limits, |turns|);
            Indexed(ms, turns + [t], limits, |turns| + 1) ==
            if |taken| < limits.maxIndexedTurns && Takes(ms, t, limits, Used(ms, taken)) then taken + [t] else taken
    ensures var taken := Indexed(ms, turns, limits, |turns|);
            Used(ms, taken + [t]) == Used(ms, taken) + Size(ms[t.start..t.end])
  {
    IndexedOf(ms, turns, turns + [t], limits, |turns|);
    var taken := Indexed(ms, turns, limits, |turns|);
    assert (taken + [t])[..|taken|] == taken;
  }

  lemma {:induction false} IndexedOf(ms: seq<Message>, a: seq<Turn>, b: seq<Turn>, limits: Limits, n: nat)
    requires Bounded(ms, a) && Bounded(ms, b) && n <= |a| && n <= |b| && a[..n] == b[..n]
    ensures Indexed(ms, a, limits, n) == Indexed(ms, b, limits, n)
  {
    if n > 0 {
      assert a[..n - 1] == a[..n][..n - 1] && b[..n - 1] == b[..n][..n - 1];
      assert a[n - 1] == a[..n][n - 1] && b[n - 1] == b[..n][n - 1];
      IndexedOf(ms, a, b, limits, n - 1);
    }
  }

  lemma NewNumber(ms: seq<Message>, boundary: nat, turns: seq<Turn>, limits: Limits)
    requires Chain(ms, boundary, turns) && Bounded(ms, turns) && turns != []
    ensures forall u | u in Indexed(ms, turns, limits, |turns| - 1) :: turns[|turns| - 1].number < u.number
  {
    ChainApart(ms, boundary, turns);
    hide Chain, Indexed, Eligible, IsTurn;
    forall u | u in Indexed(ms, turns, limits, |turns| - 1) ensures turns[|turns| - 1].number < u.number {
      IndexedEligible(ms, turns, limits, |turns| - 1, u);
      var i :| 0 <= i < |turns| - 1 && turns[i] == u;
    }
  }

  /** A newly taken turn brings an ID that is not listed yet. */
  lemma ListNew(ms: seq<Message>, taken: seq<Turn>, fingerprint: seq<Message> -> string, docs: seq<Record>, t: Turn)
    requires RecordsOf(ms, taken, fingerprint, docs) && t.start <= t.end <= |ms|
    requires forall u | u in taken :: t.number < u.number
    ensures RecordsOf(ms, taken + [t], fingerprint, docs + [RecordOf(ms, t, fingerprint)])
    ensures forall i | 0 <= i < |docs| :: docs[i].id != RecordOf(ms, t, fingerprint).id
  {
    var r := RecordOf(ms, t, fingerprint);
    assert r.id == TurnId(t.number, r.hash);
    forall i | 0 <= i < |docs| ensures docs[i].id == TurnId(taken[i].number, docs[i].hash) {
    }
    hide RecordOf, TurnId;
    forall i | 0 <= i < |docs| ensures docs[i].id != r.id {
      assert taken[i] in taken;
      if docs[i].id == r.id {
        TurnIdInjective(taken[i].number, docs[i].hash, t.number, r.hash);
      }
    }
  }
}
