/** Go's decoding of a byte string into runes, as far as rune boundaries go. */
module Utf8 {
  type byte = b: int | 0 <= b < 256
  type Bytes = seq<byte>

  /** How many bytes the leading byte announces; 1 for ASCII and for bytes that start no rune. */
  function Announced(b: byte): (n: nat)
    ensures 1 <= n <= 4
  {
    if 0xC2 <= b <= 0xDF then 2 else if 0xE0 <= b <= 0xEF then 3 else if 0xF0 <= b <= 0xF4 then 4 else 1
  }

  /** Whether the byte may follow the leading byte `lead`. */
  predicate Follows(lead: byte, b: byte) {
    (if lead == 0xE0 then 0xA0 else if lead == 0xF0 then 0x90 else 0x80) <= b <=
    (if lead == 0xED then 0x9F else if lead == 0xF4 then 0x8F else 0xBF)
  }

  predicate Continues(b: byte) {
    0x80 <= b <= 0xBF
  }

  /** The width of the rune at i; an invalid or cut-off sequence is a rune of one byte. */
  function RuneWidth(s: seq<byte>, i: nat): (w: nat)
    requires i < |s|
    ensures 1 <= w <= 4 && i + w <= |s|
  {
    var n := Announced(s[i]);
    if n == 1 || i + n > |s| || !Follows(s[i], s[i + 1]) || (n >= 3 && !Continues(s[i + 2])) ||
       (n == 4 && !Continues(s[i + 3]))
    then 1 else n
  }

  /** The number of runes from offset i on. */
  function RunesFrom(s: seq<byte>, i: nat): nat
    requires i <= |s|
    decreases |s| - i
  {
    if i == |s| then 0 else 1 + RunesFrom(s, i + RuneWidth(s, i))
  }

  function RuneCount(s: seq<byte>): nat {
    RunesFrom(s, 0)
  }

  /** The boundaries decoded in s: offsets of its runes and its end. */
  ghost predicate Boundaries(s: seq<byte>, offsets: seq<nat>) {
    && |offsets| > 0 && offsets[0] == 0 && offsets[|offsets| - 1] == |s|
    && (forall k | 0 <= k < |offsets| - 1 :: offsets[k] < |s| && offsets[k + 1] == offsets[k] + RuneWidth(s, offsets[k]))
  }

  /** The slice between two boundaries has as many runes as there are boundaries in between. */
  lemma {:induction false} SliceRunes(s: seq<byte>, offsets: seq<nat>, x: nat, y: nat, z: nat)
    requires Boundaries(s, offsets) && x <= y <= z < |offsets|
    ensures offsets[x] <= offsets[y] <= offsets[z] <= |s|
    ensures RunesFrom(s[offsets[x]..offsets[z]], offsets[y] - offsets[x]) == z - y
    decreases z - y
  {
    Ascending(offsets, s, x, y);
    Ascending(offsets, s, y, z);
    Ascending(offsets, s, z, |offsets| - 1);
    if y < z {
      var sub := s[offsets[x]..offsets[z]];
      Ascending(offsets, s, y + 1, z);
      SameWidth(s, offsets[x], offsets[z], offsets[y]);
      SliceRunes(s, offsets, x, y + 1, z);
      assert RunesFrom(sub, offsets[y] - offsets[x]) == 1 + RunesFrom(sub, offsets[y + 1] - offsets[x]);
    }
  }

  /** A rune that lies inside a slice is decoded there as in the whole text. */
  lemma SameWidth(s: seq<byte>, a: nat, b: nat, i: nat)
    requires a <= i < b <= |s| && i + RuneWidth(s, i) <= b
    ensures RuneWidth(s[a..b], i - a) == RuneWidth(s, i)
  {
    assert s[a..b][i - a] == s[i];
    assert i + 1 < b ==> s[a..b][i - a + 1] == s[i + 1];
    assert i + 2 < b ==> s[a..b][i - a + 2] == s[i + 2];
    assert i + 3 < b ==> s[a..b][i - a + 3] == s[i + 3];
  }

  lemma {:induction false} Ascending(offsets: seq<nat>, s: seq<byte>, x: nat, y: nat)
    requires Boundaries(s, offsets) && x <= y < |offsets|
    ensures offsets[x] + (y - x) <= offsets[y]
    decreases y - x
  {
    if x < y { Ascending(offsets, s, x + 1, y); }
  }

  /** The loop `for offset := range s`, with the end of s appended. */
  method RuneOffsets(s: seq<byte>) returns (offsets: seq<nat>)
    ensures Boundaries(s, offsets)
    ensures |offsets| == RuneCount(s) + 1
  {
    offsets := [];
    var i := 0;
    while i < |s|
      invariant i <= |s| && RuneCount(s) == |offsets| + RunesFrom(s, i)
      invariant offsets == [] ==> i == 0
      invariant offsets != [] ==> offsets[0] == 0 && offsets[|offsets| - 1] < |s|
      invariant offsets != [] ==> i == offsets[|offsets| - 1] + RuneWidth(s, offsets[|offsets| - 1])
      invariant forall k | 0 <= k < |offsets| - 1 ::
        offsets[k] < |s| && offsets[k + 1] == offsets[k] + RuneWidth(s, offsets[k])
    {
      offsets := offsets + [i];
      i := i + RuneWidth(s, i);
    }
    offsets := offsets + [|s|];
  }
}
