/** Chat messages and their fingerprint, chatmemory/session.go: length-prefixed fields, hashed one after another. */
module ChatHistory {
  import opened Utf8

  datatype Role = System | User | Assistant | Tool

  datatype Call = Call(id: Bytes, kind: Bytes, name: Bytes, arguments: Bytes)

  datatype Message = Message(role: Role, content: Bytes, toolCallId: Bytes, name: Bytes, calls: seq<Call>, images: seq<Bytes>)

  const WORD := 8

  function RoleNumber(r: Role): nat {
    match r
    case System => 0
    case User => 1
    case Assistant => 2
    case Tool => 3
  }

  function Power(k: nat): nat {
    if k == 0 then 1 else 256 * Power(k - 1)
  }

  /** The k low bytes of n, least significant first. */
  function LittleEndian(n: nat, k: nat): (b: Bytes)
    ensures |b| == k
  {
    if k == 0 then [] else [n % 256] + LittleEndian(n / 256, k - 1)
  }

  function Number(n: nat): Bytes {
    LittleEndian(n, WORD)
  }

  function Field(s: Bytes): Bytes {
    Number(|s|) + s
  }

  function EncodeCall(c: Call): Bytes {
    Field(c.id) + (Field(c.kind) + (Field(c.name) + Field(c.arguments)))
  }

  function EncodeCalls(cs: seq<Call>): Bytes {
    if cs == [] then [] else EncodeCall(cs[0]) + EncodeCalls(cs[1..])
  }

  function EncodeFields(fs: seq<Bytes>): Bytes {
    if fs == [] then [] else Field(fs[0]) + EncodeFields(fs[1..])
  }

  function EncodeMessage(m: Message): Bytes {
    Number(RoleNumber(m.role)) + (Field(m.content) + (Field(m.toolCallId) + (Field(m.name) +
    (Number(|m.calls|) + (EncodeCalls(m.calls) + (Number(|m.images|) + EncodeFields(m.images)))))))
  }

  /** What historyHash feeds to the hash. */
  function Encode(ms: seq<Message>): Bytes {
    if ms == [] then [] else EncodeMessage(ms[0]) + Encode(ms[1..])
  }

  // Sizes a 64-bit length can hold

  predicate Small(n: nat) {
    n < Power(WORD)
  }

  predicate SmallCall(c: Call) {
    Small(|c.id|) && Small(|c.kind|) && Small(|c.name|) && Small(|c.arguments|)
  }

  predicate SmallMessage(m: Message) {
    && Small(|m.content|) && Small(|m.toolCallId|) && Small(|m.name|) && Small(|m.calls|) && Small(|m.images|)
    && (forall i | 0 <= i < |m.calls| :: SmallCall(m.calls[i]))
    && (forall i | 0 <= i < |m.images| :: Small(|m.images[i]|))
  }

  predicate SmallHistory(ms: seq<Message>) {
    forall i | 0 <= i < |ms| :: SmallMessage(ms[i])
  }

  // Unique decoding: equal encodings with any rests have equal heads and equal rests

  lemma {:induction false} LittleEndianInjective(m: nat, n: nat, k: nat)
    requires m < Power(k) && n < Power(k) && LittleEndian(m, k) == LittleEndian(n, k)
    ensures m == n
  {
    if k > 0 {
      var a, b := LittleEndian(m, k), LittleEndian(n, k);
      assert a[0] == m % 256 && b[0] == n % 256;
      assert a[1..] == LittleEndian(m / 256, k - 1) && b[1..] == LittleEndian(n / 256, k - 1);
      LittleEndianInjective(m / 256, n / 256, k - 1);
    }
  }

  lemma SplitAt(a: Bytes, x: Bytes, b: Bytes, y: Bytes)
    requires a + x == b + y && |a| == |b|
    ensures a == b && x == y
  {
    assert a == (a + x)[..|a|] && b == (b + y)[..|b|];
    assert x == (a + x)[|a|..] && y == (b + y)[|b|..];
  }

  lemma NumberUnique(m: nat, x: Bytes, n: nat, y: Bytes)
    requires Small(m) && Small(n) && Number(m) + x == Number(n) + y
    ensures m == n && x == y
  {
    SplitAt(Number(m), x, Number(n), y);
    LittleEndianInjective(m, n, WORD);
  }

  lemma FieldUnique(s: Bytes, x: Bytes, t: Bytes, y: Bytes)
    requires Small(|s|) && Small(|t|) && Field(s) + x == Field(t) + y
    ensures s == t && x == y
  {
    assert Field(s) + x == Number(|s|) + (s + x) && Field(t) + y == Number(|t|) + (t + y);
    NumberUnique(|s|, s + x, |t|, t + y);
    SplitAt(s, x, t, y);
  }

  lemma CallUnique(c: Call, x: Bytes, d: Call, y: Bytes)
    requires SmallCall(c) && SmallCall(d) && EncodeCall(c) + x == EncodeCall(d) + y
    ensures c == d && x == y
  {
    hide Field, Small;
    var c1, d1 := Field(c.arguments) + x, Field(d.arguments) + y;
    var c2, d2 := Field(c.name) + c1, Field(d.name) + d1;
    var c3, d3 := Field(c.kind) + c2, Field(d.kind) + d2;
    assert EncodeCall(c) + x == Field(c.id) + c3 && EncodeCall(d) + y == Field(d.id) + d3;
    FieldUnique(c.id, c3, d.id, d3);
    FieldUnique(c.kind, c2, d.kind, d2);
    FieldUnique(c.name, c1, d.name, d1);
    FieldUnique(c.arguments, x, d.arguments, y);
  }

  lemma {:induction false} CallsUnique(cs: seq<Call>, x: Bytes, ds: seq<Call>, y: Bytes)
    requires |cs| == |ds| && EncodeCalls(cs) + x == EncodeCalls(ds) + y
    requires forall i | 0 <= i < |cs| :: SmallCall(cs[i]) && SmallCall(ds[i])
    ensures cs == ds && x == y
  {
    hide EncodeCall, SmallCall;
    if cs == [] {
      assert [] + x == x && [] + y == y;
    } else {
      var x', y' := EncodeCalls(cs[1..]) + x, EncodeCalls(ds[1..]) + y;
      assert EncodeCalls(cs) + x == EncodeCall(cs[0]) + x' && EncodeCalls(ds) + y == EncodeCall(ds[0]) + y';
      CallUnique(cs[0], x', ds[0], y');
      CallsUnique(cs[1..], x, ds[1..], y);
      assert cs == [cs[0]] + cs[1..] && ds == [ds[0]] + ds[1..];
    }
  }

  lemma {:induction false} FieldsUnique(fs: seq<Bytes>, x: Bytes, gs: seq<Bytes>, y: Bytes)
    requires |fs| == |gs| && EncodeFields(fs) + x == EncodeFields(gs) + y
    requires forall i | 0 <= i < |fs| :: Small(|fs[i]|) && Small(|gs[i]|)
    ensures fs == gs && x == y
  {
    hide Field, Small;
    if fs == [] {
      assert [] + x == x && [] + y == y;
    } else {
      var x', y' := EncodeFields(fs[1..]) + x, EncodeFields(gs[1..]) + y;
      assert EncodeFields(fs) + x == Field(fs[0]) + x' && EncodeFields(gs) + y == Field(gs[0]) + y';
      FieldUnique(fs[0], x', gs[0], y');
      FieldsUnique(fs[1..], x, gs[1..], y);
      assert fs == [fs[0]] + fs[1..] && gs == [gs[0]] + gs[1..];
    }
  }

  lemma {:induction false} PowerGrows(k: nat)
    ensures Power(k) >= 1
  {
    if k > 0 {
      PowerGrows(k - 1);
    }
  }

  lemma SmallRole(r: Role)
    ensures Small(RoleNumber(r))
  {
    PowerGrows(7);
    assert Power(WORD) == 256 * Power(7);
  }

  lemma MessageUnique(m: Message, x: Bytes, n: Message, y: Bytes)
    requires SmallMessage(m) && SmallMessage(n) && EncodeMessage(m) + x == EncodeMessage(n) + y
    ensures m == n && x == y
  {
    SmallRole(m.role);
    SmallRole(n.role);
    hide Field, Small, Number, EncodeCalls, EncodeFields, SmallCall;
    var m1, n1 := EncodeFields(m.images) + x, EncodeFields(n.images) + y;
    var m2, n2 := Number(|m.images|) + m1, Number(|n.images|) + n1;
    var m3, n3 := EncodeCalls(m.calls) + m2, EncodeCalls(n.calls) + n2;
    var m4, n4 := Number(|m.calls|) + m3, Number(|n.calls|) + n3;
    var m5, n5 := Field(m.name) + m4, Field(n.name) + n4;
    var m6, n6 := Field(m.toolCallId) + m5, Field(n.toolCallId) + n5;
    var m7, n7 := Field(m.content) + m6, Field(n.content) + n6;
    assert EncodeMessage(m) + x == Number(RoleNumber(m.role)) + m7;
    assert EncodeMessage(n) + y == Number(RoleNumber(n.role)) + n7;
    hide EncodeMessage;
    NumberUnique(RoleNumber(m.role), m7, RoleNumber(n.role), n7);
    FieldUnique(m.content, m6, n.content, n6);
    FieldUnique(m.toolCallId, m5, n.toolCallId, n5);
    FieldUnique(m.name, m4, n.name, n4);
    NumberUnique(|m.calls|, m3, |n.calls|, n3);
    CallsUnique(m.calls, m2, n.calls, n2);
    NumberUnique(|m.images|, m1, |n.images|, n1);
    FieldsUnique(m.images, x, n.images, y);
  }

  lemma EncodeMessageLong(m: Message)
    ensures |EncodeMessage(m)| >= WORD
  {
  }

  /** Two histories with the same encoding are the same history, whatever their lengths. */
  lemma {:induction false} EncodeInjective(ms: seq<Message>, ns: seq<Message>)
    requires SmallHistory(ms) && SmallHistory(ns) && Encode(ms) == Encode(ns)
    ensures ms == ns
  {
    hide EncodeMessage, SmallMessage;
    if ms == [] {
      if ns != [] {
        EncodeMessageLong(ns[0]);
      }
    } else {
      EncodeMessageLong(ms[0]);
      assert ns != [];
      MessageUnique(ms[0], Encode(ms[1..]), ns[0], Encode(ns[1..]));
      EncodeInjective(ms[1..], ns[1..]);
      assert ms == [ms[0]] + ms[1..] && ns == [ns[0]] + ns[1..];
    }
  }
}
