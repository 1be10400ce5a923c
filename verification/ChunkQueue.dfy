/**
 The task queues in Redis (src/storage/redis_interface.py): values that are too large are stored in
 chunks, and the queue holds a meta key that lists them.

 Byte strings and text are both strings of characters here: meta keys are plain ASCII. A value is its
 serialised form; `dumps` and `loads` are not part of this model.
 */
module ChunkQueue {
  import opened Basics
  import opened Strings

  type Bytes = string

  const CHUNK_MAGIC: Bytes := "$CHUNKED$"
  const SEPARATOR: char := '#'
  const KEY_LIMIT := 10_000

  function Digit(n: nat): char
    requires n < 10
  {
    ('0' as int + n) as char
  }

  function Decimal(n: nat): (s: string)
    ensures SEPARATOR !in s && s != ""
  {
    if n < 10 then [Digit(n)] else Decimal(n / 10) + [Digit(n % 10)]
  }

  function ChunkKey(n: nat): (s: string)
    ensures SEPARATOR !in s
  {
    "chunk_" + Decimal(n)
  }

  /** The keys that `_get_new_chunk_key` draws from. */
  function ChunkKeys(limit: nat): (keys: set<string>)
    ensures forall k :: k in keys ==> SEPARATOR !in k
  {
    set n | 0 <= n < limit :: ChunkKey(n)
  }

  /** Different numbers are written differently. */
  lemma {:induction false} DecimalInjective(m: nat, n: nat)
    requires Decimal(m) == Decimal(n)
    ensures m == n
    decreases m
  {
    SameEnd(if m < 10 then "" else Decimal(m / 10), if n < 10 then "" else Decimal(n / 10), Digit(m % 10), Digit(n % 10));
    if m >= 10 && n >= 10 {
      DecimalInjective(m / 10, n / 10);
    }
  }

  lemma SameEnd(a: string, b: string, x: char, y: char)
    requires a + [x] == b + [y]
    ensures a == b && x == y
  {
    assert (a + [x])[..|a|] == a && (b + [y])[..|b|] == b;
    assert (a + [x])[|a|] == x && (b + [y])[|b|] == y;
  }

  /** There are as many chunk keys as numbers. */
  lemma {:induction false} ChunkKeyCount(limit: nat)
    ensures |ChunkKeys(limit)| == limit
  {
    if limit > 0 {
      ChunkKeyCount(limit - 1);
      var last := ChunkKey(limit - 1);
      if last in ChunkKeys(limit - 1) {
        var n: nat :| n < limit - 1 && ChunkKey(n) == last;
        assert ("chunk_" + Decimal(n))[6..] == Decimal(n) && last[6..] == Decimal(limit - 1);
        DecimalInjective(n, limit - 1);
      }
      assert ChunkKeys(limit) == ChunkKeys(limit - 1) + {last};
    } else {
      assert ChunkKeys(0) == {};
    }
  }

  // ----- Meta keys -----

  /** The meta key for chunks stored under `keys`. */
  function MetaKey(keys: seq<string>): string {
    if keys == [] then CHUNK_MAGIC else MetaKey(keys[..|keys| - 1]) + [SEPARATOR] + keys[|keys| - 1]
  }

  lemma MetaKeyLonger(keys: seq<string>, key: string)
    ensures MetaKey(keys + [key]) == MetaKey(keys) + [SEPARATOR] + key
  {
    assert (keys + [key])[..|keys|] == keys;
  }

  /** The keys can be read back from the meta key. */
  lemma {:induction false} MetaKeyRoundTrip(keys: seq<string>)
    requires forall k :: k in keys ==> SEPARATOR !in k
    ensures Split(MetaKey(keys), SEPARATOR) == [CHUNK_MAGIC] + keys
    ensures CHUNK_MAGIC <= MetaKey(keys)
  {
    if keys == [] {
      assert SEPARATOR !in CHUNK_MAGIC;
      SplitWord(CHUNK_MAGIC, SEPARATOR);
    } else {
      var last := |keys| - 1;
      MetaKeyRoundTrip(keys[..last]);
      SplitLast(MetaKey(keys[..last]), keys[last], SEPARATOR);
      assert keys == keys[..last] + [keys[last]];
    }
  }

  // ----- Chunks -----

  function Min(a: int, b: int): int {
    if a < b then a else b
  }

  /** `ceil(length / size)` */
  function ChunkCount(length: nat, size: nat): nat
    requires size > 0
  {
    (length + size - 1) / size
  }

  /** Python's `value[lo:hi]`, whose bounds may lie beyond the end. */
  function Slice(value: Bytes, lo: nat, hi: nat): Bytes
    requires lo <= hi
  {
    value[Min(lo, |value|)..Min(hi, |value|)]
  }

  /** The chunk at position `index`: `value[size * index : size * (index + 1)]`. */
  function Chunk(value: Bytes, size: nat, index: nat): Bytes
    requires size > 0
  {
    ChunkBounds(|value|, size, index);
    Slice(value, size * index, size * (index + 1))
  }

  /** How many bytes the first `index` chunks hold. */
  function Reached(length: nat, size: nat, index: nat): nat
    requires size > 0
  {
    ChunkBounds(length, size, index);
    Min(size * index, length)
  }

  lemma ChunkIsNext(value: Bytes, size: nat, index: nat)
    requires size > 0
    ensures Chunk(value, size, index) <= value[Reached(|value|, size, index)..]
    ensures Reached(|value|, size, index) + |Chunk(value, size, index)| == Reached(|value|, size, index + 1)
  {
    ChunkBounds(|value|, size, index);
  }

  lemma ChunksCover(length: nat, size: nat)
    requires size > 0
    ensures Reached(length, size, ChunkCount(length, size)) == length
    ensures ChunkCount(length, size) > 0 ==> Reached(length, size, ChunkCount(length, size) - 1) < length
  {
    ChunkBounds(length, size, ChunkCount(length, size));
    if ChunkCount(length, size) > 0 {
      ChunkBounds(length, size, ChunkCount(length, size) - 1);
    }
  }

  /** The bounds of consecutive chunks meet, and `ChunkCount` of them cover the value but no fewer. */
  lemma ChunkBounds(length: nat, size: nat, index: nat)
    requires size > 0
    ensures index < ChunkCount(length, size) <==> size * index < length
    ensures 0 <= size * index <= size * (index + 1) == size * index + size
  {
    var c, r := ChunkCount(length, size), (length + size - 1) % size;
    assert length + size - 1 == size * c + r;
    if index < c {
      MultiplyMonotone(size, index, c - 1);
      assert size * (c - 1) == size * c - size;
    } else {
      MultiplyMonotone(size, c, index);
    }
  }

  lemma MultiplyMonotone(a: nat, b: nat, c: nat)
    requires b <= c
    ensures a * b <= a * c
  {
  }

  /** How many chunks a value is stored in. */
  function KeysNeeded(value: Bytes, size: nat): nat
    requires size > 0
  {
    if |value| > size then ChunkCount(|value|, size) else 0
  }

  /** The chunks stored under `keys`, put together. */
  function Combined(strings: map<string, Bytes>, keys: seq<string>): Bytes {
    if keys == [] then []
    else
      var last := |keys| - 1;
      Combined(strings, keys[..last]) + (if keys[last] in strings then strings[keys[last]] else [])
  }

  lemma {:induction false} CombinedSame(a: map<string, Bytes>, b: map<string, Bytes>, keys: seq<string>)
    requires forall k :: k in keys ==> k in a && k in b && a[k] == b[k]
    ensures Combined(a, keys) == Combined(b, keys)
  {
    if keys != [] {
      CombinedSame(a, b, keys[..|keys| - 1]);
    }
  }

  lemma NextCombined(strings: map<string, Bytes>, keys: seq<string>, i: nat)
    requires NoDup(keys) && i < |keys| && ToSet(keys) <= strings.Keys
    ensures keys[i] in strings && keys[i] !in ToSet(keys[..i])
    ensures ToSet(keys[..i + 1]) == ToSet(keys[..i]) + {keys[i]}
    ensures Combined(strings, keys[..i + 1]) == Combined(strings, keys[..i]) + strings[keys[i]]
  {
    assert keys[i] in ToSet(keys);
    assert keys[..i + 1][..i] == keys[..i];
  }

  // ----- What the store means -----

  predicate IsMeta(entry: Bytes) {
    CHUNK_MAGIC <= entry
  }

  function KeysOf(entry: Bytes): seq<string> {
    if IsMeta(entry) then Split(entry, SEPARATOR)[1..] else []
  }

  /** The value a queue entry stands for. */
  function Decoded(strings: map<string, Bytes>, entry: Bytes): Bytes {
    if IsMeta(entry) then Combined(strings, KeysOf(entry)) else entry
  }

  /** `pool` holds the possible chunk keys. */
  datatype Store = Store(strings: map<string, Bytes>, lists: map<string, seq<Bytes>>, pool: set<string>)

  function Queue(s: Store, key: string): seq<Bytes> {
    if key in s.lists then s.lists[key] else []
  }

  function DecodedAll(strings: map<string, Bytes>, entries: seq<Bytes>): seq<Bytes> {
    seq(|entries|, i requires 0 <= i < |entries| => Decoded(strings, entries[i]))
  }

  function Contents(s: Store, key: string): seq<Bytes> {
    DecodedAll(s.strings, Queue(s, key))
  }

  ghost predicate EntryOk(s: Store, entry: Bytes) {
    NoDup(KeysOf(entry)) && ToSet(KeysOf(entry)) <= s.strings.Keys && ToSet(KeysOf(entry)) <= s.pool
  }

  ghost predicate Live(s: Store, key: string, i: int) {
    key in s.lists && 0 <= i < |s.lists[key]|
  }

  ghost predicate AllEntriesOk(s: Store) {
    forall k, i :: Live(s, k, i) ==> EntryOk(s, s.lists[k][i])
  }

  /** Live entries own disjoint chunks. */
  ghost predicate Disjoint(s: Store) {
    forall k, i, l, j :: Live(s, k, i) && Live(s, l, j) && (k != l || i != j) ==>
      ToSet(KeysOf(s.lists[k][i])) !! ToSet(KeysOf(s.lists[l][j]))
  }

  /** Every stored chunk belongs to a live entry. */
  ghost predicate NoLeaks(s: Store) {
    forall c :: c in s.strings && c in s.pool ==> exists k, i :: Live(s, k, i) && c in KeysOf(s.lists[k][i])
  }

  /** An entry lists as many chunks as its value takes up. */
  ghost predicate Sized(s: Store, size: nat)
    requires size > 0
  {
    forall k, i :: Live(s, k, i) ==>
      |KeysOf(s.lists[k][i])| == KeysNeeded(Decoded(s.strings, s.lists[k][i]), size)
  }

  ghost predicate ValidStore(s: Store) {
    && (forall k :: k in s.lists ==> s.lists[k] != [] && k !in s.strings && k !in s.pool)
    && AllEntriesOk(s) && Disjoint(s) && NoLeaks(s)
  }

  function FreeKeys(s: Store): set<string> {
    set k | k in s.pool && k !in s.strings && k !in s.lists
  }

  lemma SizeWithout<T>(all: set<T>, rest: set<T>, taken: set<T>)
    requires rest !! taken && forall x :: x in all <==> x in rest || x in taken
    ensures |rest| == |all| - |taken|
  {
    assert all == rest + taken;
  }

  /** Once all queues are drained, no chunk remains. */
  lemma DrainedHasNoChunks(s: Store)
    requires ValidStore(s) && s.lists == map[]
    ensures s.strings.Keys !! s.pool
  {
  }

  // ----- Appending an entry -----

  /** `entry` is put at the end of queue `key`, after its chunks were stored. */
  function Pushed(s: Store, chunks: map<string, Bytes>, key: string, entry: Bytes): Store {
    Store(s.strings + chunks, s.lists[key := Queue(s, key) + [entry]], s.pool)
  }

  lemma PushKeepsValid(s: Store, chunks: map<string, Bytes>, key: string, entry: Bytes)
    requires ValidStore(s) && key !in s.strings && key !in s.pool
    requires chunks.Keys <= FreeKeys(s) && ToSet(KeysOf(entry)) == chunks.Keys && NoDup(KeysOf(entry))
    ensures ValidStore(Pushed(s, chunks, key, entry))
  {
    var s' := Pushed(s, chunks, key, entry);
    var last := |s'.lists[key]| - 1;
    PushEntries(s, chunks, key, entry);
    PushDisjoint(s, chunks, key, entry);
    forall c | c in s'.strings && c in s'.pool
      ensures exists k, i :: Live(s', k, i) && c in KeysOf(s'.lists[k][i])
    {
      if c in chunks {
        assert c in ToSet(KeysOf(entry));
        assert Live(s', key, last) && s'.lists[key][last] == entry;
      } else {
        var k, i :| Live(s, k, i) && c in KeysOf(s.lists[k][i]);
        assert Live(s', k, i) && s'.lists[k][i] == s.lists[k][i];
      }
    }
  }

  lemma PushEntries(s: Store, chunks: map<string, Bytes>, key: string, entry: Bytes)
    requires AllEntriesOk(s) && chunks.Keys <= FreeKeys(s)
    requires ToSet(KeysOf(entry)) == chunks.Keys && NoDup(KeysOf(entry))
    ensures AllEntriesOk(Pushed(s, chunks, key, entry))
  {
    var s' := Pushed(s, chunks, key, entry);
    forall k, i | Live(s', k, i)
      ensures EntryOk(s', s'.lists[k][i])
    {
      if Live(s, k, i) {
        assert s'.lists[k][i] == s.lists[k][i] && EntryOk(s, s.lists[k][i]);
      } else {
        assert s'.lists[k][i] == entry;
      }
    }
  }

  lemma PushDisjoint(s: Store, chunks: map<string, Bytes>, key: string, entry: Bytes)
    requires AllEntriesOk(s) && Disjoint(s) && chunks.Keys <= FreeKeys(s)
    requires ToSet(KeysOf(entry)) == chunks.Keys
    ensures Disjoint(Pushed(s, chunks, key, entry))
  {
    var s' := Pushed(s, chunks, key, entry);
    forall k, i, l, j | Live(s', k, i) && Live(s', l, j) && (k != l || i != j)
      ensures ToSet(KeysOf(s'.lists[k][i])) !! ToSet(KeysOf(s'.lists[l][j]))
    {
      if Live(s, k, i) {
        assert s'.lists[k][i] == s.lists[k][i] && EntryOk(s, s.lists[k][i]);
      } else {
        assert s'.lists[k][i] == entry;
      }
      if Live(s, l, j) {
        assert s'.lists[l][j] == s.lists[l][j] && EntryOk(s, s.lists[l][j]);
      } else {
        assert s'.lists[l][j] == entry;
      }
    }
  }

  /** What the queues hold is unchanged, apart from the new value at the end of one of them. */
  lemma PushContents(s: Store, chunks: map<string, Bytes>, key: string, entry: Bytes, k: string)
    requires AllEntriesOk(s) && chunks.Keys <= FreeKeys(s)
    ensures var s' := Pushed(s, chunks, key, entry);
            Contents(s', k) == Contents(s, k) + (if k == key then [Decoded(s'.strings, entry)] else [])
  {
    var s' := Pushed(s, chunks, key, entry);
    forall i | 0 <= i < |Queue(s, k)|
      ensures Decoded(s'.strings, Queue(s, k)[i]) == Decoded(s.strings, Queue(s, k)[i])
    {
      assert Live(s, k, i);
      assert EntryOk(s, Queue(s, k)[i]);
      assert forall c :: c in KeysOf(Queue(s, k)[i]) ==> c in ToSet(KeysOf(Queue(s, k)[i]));
      DecodedSame(s.strings, s'.strings, Queue(s, k)[i]);
    }
  }

  lemma DecodedSame(a: map<string, Bytes>, b: map<string, Bytes>, entry: Bytes)
    requires forall c :: c in KeysOf(entry) ==> c in a && c in b && a[c] == b[c]
    ensures Decoded(a, entry) == Decoded(b, entry)
  {
    CombinedSame(a, b, KeysOf(entry));
  }

  // ----- Removing an entry -----

  /** The first entry of queue `key` is taken and its chunks are deleted; an empty list disappears. */
  function Popped(s: Store, key: string): Store
    requires key in s.lists && s.lists[key] != []
  {
    var q := s.lists[key];
    Store(s.strings - ToSet(KeysOf(q[0])), if |q| == 1 then s.lists - {key} else s.lists[key := q[1..]], s.pool)
  }

  /** An entry that is live after the removal was live before, one place further back in its queue. */
  lemma PoppedEntry(s: Store, key: string, k: string, i: int)
    requires key in s.lists && s.lists[key] != [] && Live(Popped(s, key), k, i)
    ensures var j := if k == key then i + 1 else i;
            Live(s, k, j) && s.lists[k][j] == Popped(s, key).lists[k][i]
  {
  }

  lemma PopKeepsValid(s: Store, key: string)
    requires ValidStore(s) && key in s.lists
    ensures ValidStore(Popped(s, key))
  {
    forall k, i | Live(Popped(s, key), k, i)
      ensures EntryOk(Popped(s, key), Popped(s, key).lists[k][i])
    {
      PopEntryOk(s, key, k, i);
    }
    PopDisjoint(s, key);
    forall c | c in Popped(s, key).strings && c in s.pool
      ensures exists k, i :: Live(Popped(s, key), k, i) && c in KeysOf(Popped(s, key).lists[k][i])
    {
      PopOwned(s, key, c);
    }
  }

  lemma PopEntryOk(s: Store, key: string, k: string, i: int)
    requires ValidStore(s) && key in s.lists && Live(Popped(s, key), k, i)
    ensures EntryOk(Popped(s, key), Popped(s, key).lists[k][i])
  {
    PoppedEntry(s, key, k, i);
    var entry := Popped(s, key).lists[k][i];
    assert Live(s, key, 0);
    assert EntryOk(s, entry);
    assert ToSet(KeysOf(entry)) !! ToSet(KeysOf(s.lists[key][0]));
  }

  /** A chunk that is left belongs to an entry that is left. */
  lemma PopOwned(s: Store, key: string, c: string)
    requires ValidStore(s) && key in s.lists && c in Popped(s, key).strings && c in s.pool
    ensures exists k, i :: Live(Popped(s, key), k, i) && c in KeysOf(Popped(s, key).lists[k][i])
  {
    var k, i :| Live(s, k, i) && c in KeysOf(s.lists[k][i]);
    var j := if k == key then i - 1 else i;
    assert c in ToSet(KeysOf(s.lists[k][i])) && c !in ToSet(KeysOf(s.lists[key][0]));
    assert Live(Popped(s, key), k, j) && Popped(s, key).lists[k][j] == s.lists[k][i];
  }

  lemma PopDisjoint(s: Store, key: string)
    requires Disjoint(s) && key in s.lists && s.lists[key] != []
    ensures Disjoint(Popped(s, key))
  {
    var s' := Popped(s, key);
    forall k, i, l, j | Live(s', k, i) && Live(s', l, j) && (k != l || i != j)
      ensures ToSet(KeysOf(s'.lists[k][i])) !! ToSet(KeysOf(s'.lists[l][j]))
    {
      PoppedEntry(s, key, k, i);
      PoppedEntry(s, key, l, j);
    }
  }

  /** An entry that stays keeps its value. */
  lemma PoppedValue(s: Store, key: string, k: string, i: int)
    requires ValidStore(s) && key in s.lists && Live(Popped(s, key), k, i)
    ensures var entry := Popped(s, key).lists[k][i];
            Decoded(Popped(s, key).strings, entry) == Decoded(s.strings, entry)
  {
    PoppedEntry(s, key, k, i);
    var entry := Popped(s, key).lists[k][i];
    assert Live(s, key, 0);
    assert EntryOk(s, entry);
    assert ToSet(KeysOf(entry)) !! ToSet(KeysOf(s.lists[key][0]));
    assert forall c :: c in KeysOf(entry) ==> c in ToSet(KeysOf(entry));
    DecodedSame(s.strings, Popped(s, key).strings, entry);
  }

  lemma PopContents(s: Store, key: string, k: string)
    requires ValidStore(s) && key in s.lists
    ensures Contents(Popped(s, key), k) == if k == key then Contents(s, k)[1..] else Contents(s, k)
  {
    var q := Queue(Popped(s, key), k);
    forall i | 0 <= i < |q|
      ensures Decoded(Popped(s, key).strings, q[i]) == Decoded(s.strings, q[i])
    {
      assert Live(Popped(s, key), k, i);
      PoppedValue(s, key, k, i);
    }
    AllDecodedSame(Popped(s, key).strings, s.strings, q);
    assert Live(s, key, 0);
    PoppedQueue(s, key, k);
    if k == key {
      DecodedTail(s.strings, Queue(s, k));
    }
  }

  lemma PoppedQueue(s: Store, key: string, k: string)
    requires key in s.lists && s.lists[key] != []
    ensures Queue(Popped(s, key), k) == if k == key then Queue(s, k)[1..] else Queue(s, k)
  {
  }

  lemma AllDecodedSame(a: map<string, Bytes>, b: map<string, Bytes>, entries: seq<Bytes>)
    requires forall i :: 0 <= i < |entries| ==> Decoded(a, entries[i]) == Decoded(b, entries[i])
    ensures DecodedAll(a, entries) == DecodedAll(b, entries)
  {
  }

  lemma DecodedTail(strings: map<string, Bytes>, entries: seq<Bytes>)
    requires entries != []
    ensures DecodedAll(strings, entries[1..]) == DecodedAll(strings, entries)[1..]
  {
  }

  // ----- What the two operations do -----

  /** Queue `key` has `value` at its end, and every other queue is as before. */
  ghost predicate Appends(s: Store, s': Store, key: string, value: Bytes) {
    forall k :: Contents(s', k) == Contents(s, k) + (if k == key then [value] else [])
  }

  /** Queue `key` has lost its first value, and every other queue is as before. */
  ghost predicate Takes(s: Store, s': Store, key: string) {
    forall k :: Contents(s', k) == if k == key && Contents(s, k) != [] then Contents(s, k)[1..] else Contents(s, k)
  }

  /** What taking a value from a plain queue yields. */
  function Head(waiting: seq<Bytes>): Option<Bytes> {
    if waiting == [] then None else Some(waiting[0])
  }

  lemma PushAppends(s: Store, chunks: map<string, Bytes>, key: string, entry: Bytes)
    requires AllEntriesOk(s) && chunks.Keys <= FreeKeys(s)
    ensures Appends(s, Pushed(s, chunks, key, entry), key, Decoded(s.strings + chunks, entry))
  {
    forall k
      ensures Contents(Pushed(s, chunks, key, entry), k)
           == Contents(s, k) + (if k == key then [Decoded(s.strings + chunks, entry)] else [])
    {
      PushContents(s, chunks, key, entry, k);
    }
  }

  lemma PushUsesKeys(s: Store, chunks: map<string, Bytes>, key: string, entry: Bytes)
    requires key !in s.pool && chunks.Keys <= FreeKeys(s)
    ensures |FreeKeys(Pushed(s, chunks, key, entry))| == |FreeKeys(s)| - |chunks.Keys|
  {
    SizeWithout(FreeKeys(s), FreeKeys(Pushed(s, chunks, key, entry)), chunks.Keys);
  }

  lemma PushKeepsSized(s: Store, chunks: map<string, Bytes>, key: string, entry: Bytes, size: nat)
    requires size > 0 && Sized(s, size) && AllEntriesOk(s) && chunks.Keys <= FreeKeys(s)
    requires |KeysOf(entry)| == KeysNeeded(Decoded(s.strings + chunks, entry), size)
    ensures Sized(Pushed(s, chunks, key, entry), size)
  {
    var s' := Pushed(s, chunks, key, entry);
    forall k, i | Live(s', k, i)
      ensures |KeysOf(s'.lists[k][i])| == KeysNeeded(Decoded(s'.strings, s'.lists[k][i]), size)
    {
      if Live(s, k, i) {
        PushContents(s, chunks, key, entry, k);
        assert Contents(s', k)[i] == Contents(s, k)[i];
        assert s'.lists[k][i] == s.lists[k][i];
      }
    }
  }

  lemma PopKeepsSized(s: Store, key: string, size: nat)
    requires size > 0 && ValidStore(s) && Sized(s, size) && key in s.lists
    ensures Sized(Popped(s, key), size)
  {
    var s' := Popped(s, key);
    forall k, i | Live(s', k, i)
      ensures |KeysOf(s'.lists[k][i])| == KeysNeeded(Decoded(s'.strings, s'.lists[k][i]), size)
    {
      PopContents(s, key, k);
      PoppedEntry(s, key, k, i);
      assert Contents(s', k)[i] == Contents(s, k)[if k == key then i + 1 else i];
    }
  }

  lemma PopTakes(s: Store, key: string)
    requires ValidStore(s) && key in s.lists
    ensures Takes(s, Popped(s, key), key)
    ensures Contents(s, key) != [] && Contents(s, key)[0] == Decoded(s.strings, s.lists[key][0])
  {
    forall k
      ensures Contents(Popped(s, key), k) == if k == key then Contents(s, k)[1..] else Contents(s, k)
    {
      PopContents(s, key, k);
    }
  }

  lemma PopFreesKeys(s: Store, key: string)
    requires ValidStore(s) && key in s.lists
    ensures |FreeKeys(Popped(s, key))| == |FreeKeys(s)| + |KeysOf(s.lists[key][0])|
  {
    var s', gone := Popped(s, key), KeysOf(s.lists[key][0]);
    assert Live(s, key, 0);
    assert EntryOk(s, s.lists[key][0]);
    NoDupSize(gone);
    SizeWithout(FreeKeys(s'), FreeKeys(s), ToSet(gone));
  }

  // ----- Storing chunks -----

  /** The first `done` bytes of `value` have been stored under `keys`. */
  ghost predicate Chunked(s: Store, strings: map<string, Bytes>, value: Bytes, keys: seq<string>, done: nat) {
    && NoDup(keys) && ToSet(keys) <= FreeKeys(s)
    && strings.Keys == s.strings.Keys + ToSet(keys)
    && (forall k :: k in s.strings ==> strings[k] == s.strings[k])
    && done <= |value| && Combined(strings, keys) == value[..done]
  }

  lemma OneMoreChunk(s: Store, strings: map<string, Bytes>, value: Bytes, keys: seq<string>, done: nat, key: string, chunk: Bytes)
    requires Chunked(s, strings, value, keys, done)
    requires key in FreeKeys(s) && key !in strings && chunk <= value[done..]
    ensures Chunked(s, strings[key := chunk], value, keys + [key], done + |chunk|)
  {
    assert key !in ToSet(keys);
    AppendNew(keys, key);
    CombinedMore(strings, keys, key, chunk);
    assert value[..done] + chunk == value[..done + |chunk|];
  }

  lemma CombinedMore(strings: map<string, Bytes>, keys: seq<string>, key: string, chunk: Bytes)
    requires key !in strings && ToSet(keys) <= strings.Keys
    ensures Combined(strings[key := chunk], keys + [key]) == Combined(strings, keys) + chunk
  {
    assert forall k :: k in keys ==> k in ToSet(keys);
    CombinedSame(strings, strings[key := chunk], keys);
    assert (keys + [key])[..|keys|] == keys;
  }

  lemma ChunkedIsFree(s: Store, strings: map<string, Bytes>, value: Bytes, keys: seq<string>, done: nat)
    requires Chunked(s, strings, value, keys, done)
    ensures |FreeKeys(s.(strings := strings))| == |FreeKeys(s)| - |keys|
  {
    NoDupSize(keys);
    SizeWithout(FreeKeys(s), FreeKeys(s.(strings := strings)), ToSet(keys));
  }

  /** The part of `strings` that was added to `before`. */
  lemma AddedStrings(before: map<string, Bytes>, strings: map<string, Bytes>, keys: set<string>)
    returns (chunks: map<string, Bytes>)
    requires strings.Keys == before.Keys + keys && before.Keys !! keys
    requires forall k :: k in before ==> strings[k] == before[k]
    ensures chunks.Keys == keys && strings == before + chunks
  {
    chunks := map k | k in keys :: strings[k];
  }

  /** What was stored can be read back from the entry that is pushed. */
  lemma ChunkedDecodes(s: Store, strings: map<string, Bytes>, value: Bytes, keys: seq<string>)
    requires Chunked(s, strings, value, keys, |value|)
    requires forall k :: k in s.pool ==> SEPARATOR !in k
    ensures KeysOf(MetaKey(keys)) == keys && Decoded(strings, MetaKey(keys)) == value
  {
    assert forall k :: k in keys ==> k in ToSet(keys);
    MetaKeyRoundTrip(keys);
    assert value[..|value|] == value;
  }

  // ----- The interface -----

  class RedisInterface {
    const chunkSize: nat
    const chunkKeys: set<string>
    var strings: map<string, Bytes>
    var lists: map<string, seq<Bytes>>

    ghost predicate Valid()
      reads this
    {
      chunkSize > 0 && ValidStore(View()) && Sized(View(), chunkSize) && forall k :: k in chunkKeys ==> SEPARATOR !in k
    }

    function View(): Store
      reads this
    {
      Store(strings, lists, chunkKeys)
    }

    constructor (chunkSize: nat)
      requires chunkSize > 0
      ensures Valid() && this.chunkSize == chunkSize && chunkKeys == ChunkKeys(KEY_LIMIT) && View() == Store(map[], map[], chunkKeys)
      ensures |chunkKeys| == KEY_LIMIT
    {
      ChunkKeyCount(KEY_LIMIT);
      this.chunkSize := chunkSize;
      chunkKeys := ChunkKeys(KEY_LIMIT);
      strings, lists := map[], map[];
    }

    /** Random numbers are drawn until the key is unused: any unused key may come out. */
    method GetNewChunkKey() returns (key: string)
      requires FreeKeys(View()) != {}
      ensures key in FreeKeys(View())
    {
      key :| key in FreeKeys(View());
    }

    /** Cuts a value into chunks and stores each under a key of its own. */
    method StoreChunks(value: Bytes) returns (metaKey: Bytes, ghost keys: seq<string>)
      requires chunkSize > 0 && ChunkCount(|value|, chunkSize) <= |FreeKeys(View())|
      modifies this`strings
      ensures metaKey == MetaKey(keys) && |keys| == ChunkCount(|value|, chunkSize)
      ensures Chunked(old(View()), strings, value, keys, |value|)
    {
      metaKey, keys := CHUNK_MAGIC, [];
      ghost var s, done := View(), 0;
      assert value[..0] == [];
      for index := 0 to ChunkCount(|value|, chunkSize)
        invariant metaKey == MetaKey(keys) && |keys| == index
        invariant done == Reached(|value|, chunkSize, index) && Chunked(s, strings, value, keys, done)
      {
        var key := StoreNext(s, keys, value, index);
        MetaKeyLonger(keys, key);
        metaKey := metaKey + [SEPARATOR] + key;
        keys, done := keys + [key], Reached(|value|, chunkSize, index + 1);
      }
      ChunksCover(|value|, chunkSize);
    }

    /** Cuts off the chunk with this index and stores it. */
    method StoreNext(ghost s: Store, ghost keys: seq<string>, value: Bytes, index: nat) returns (key: string)
      requires chunkSize > 0 && index < ChunkCount(|value|, chunkSize) && |keys| < |FreeKeys(s)|
      requires s == View().(strings := s.strings)
      requires Chunked(s, strings, value, keys, Reached(|value|, chunkSize, index))
      modifies this`strings
      ensures Chunked(s, strings, value, keys + [key], Reached(|value|, chunkSize, index + 1))
    {
      ChunkIsNext(value, chunkSize, index);
      key := StoreChunk(s, keys, value, Reached(|value|, chunkSize, index), Chunk(value, chunkSize, index));
    }

    /** One iteration: a chunk is stored under a new key. */
    method StoreChunk(ghost s: Store, ghost keys: seq<string>, ghost value: Bytes, ghost done: nat, chunk: Bytes)
      returns (key: string)
      requires s == View().(strings := s.strings)
      requires Chunked(s, strings, value, keys, done) && chunk <= value[done..]
      requires |keys| < |FreeKeys(s)|
      modifies this`strings
      ensures Chunked(s, strings, value, keys + [key], done + |chunk|)
    {
      ChunkedIsFree(s, strings, value, keys, done);
      assert View() == s.(strings := strings);
      key := GetNewChunkKey();
      OneMoreChunk(s, strings, value, keys, done, key, chunk);
      strings := strings[key := chunk];
    }

    method SplitIfNecessary(value: Bytes) returns (entry: Bytes, ghost chunks: map<string, Bytes>)
      requires Valid() && (|value| <= chunkSize ==> !IsMeta(value))
      requires KeysNeeded(value, chunkSize) <= |FreeKeys(View())|
      modifies this`strings
      ensures strings == old(strings) + chunks && chunks.Keys <= old(FreeKeys(View()))
      ensures ToSet(KeysOf(entry)) == chunks.Keys && NoDup(KeysOf(entry)) && Decoded(strings, entry) == value
      ensures |KeysOf(entry)| == |chunks.Keys| == KeysNeeded(value, chunkSize)
    {
      entry, chunks := value, map[];
      if |value| > chunkSize {
        ghost var s := View();
        ghost var keys;
        entry, keys := StoreChunks(value);
        ChunkedDecodes(s, strings, value, keys);
        chunks := AddedStrings(s.strings, strings, ToSet(keys));
        NoDupSize(keys);
      }
    }

    /**
     Appends a value to a queue. A value that is short enough is stored as it is, so it must not look
     like a meta key; serialised values never do.
     */
    method QueuePut(key: string, value: Bytes)
      requires Valid() && key !in strings && key !in chunkKeys
      requires |value| <= chunkSize ==> !IsMeta(value)
      requires KeysNeeded(value, chunkSize) <= |FreeKeys(View())|
      modifies this
      ensures Valid() && Appends(old(View()), View(), key, value)
      ensures |FreeKeys(View())| + KeysNeeded(value, chunkSize) == |old(FreeKeys(View()))|
      ensures strings.Keys <= old(strings).Keys + chunkKeys
    {
      ghost var s := View();
      ghost var chunks;
      var entry;
      entry, chunks := SplitIfNecessary(value);
      PushKeepsValid(s, chunks, key, entry);
      PushAppends(s, chunks, key, entry);
      PushUsesKeys(s, chunks, key, entry);
      PushKeepsSized(s, chunks, key, entry, chunkSize);
      var queue := if key in lists then lists[key] else [];
      lists := lists[key := queue + [entry]];
      assert View() == Pushed(s, chunks, key, entry);
    }

    /** Takes the first value of a queue; there is none if the queue is empty. */
    method QueueGet(key: string) returns (value: Option<Bytes>)
      requires Valid()
      modifies this
      ensures Valid() && Takes(old(View()), View(), key)
      ensures value == Head(old(Contents(View(), key)))
      ensures |FreeKeys(View())| == |old(FreeKeys(View()))| + (if value.None? then 0 else KeysNeeded(value.value, chunkSize))
      ensures strings.Keys <= old(strings).Keys
    {
      ghost var s := View();
      if key !in lists {
        return None;
      }
      PopTakes(s, key);
      PopKeepsValid(s, key);
      PopKeepsSized(s, key, chunkSize);
      PopFreesKeys(s, key);
      var entry := lists[key][0];
      assert Live(s, key, 0);
      lists := if |lists[key]| == 1 then lists - {key} else lists[key := lists[key][1..]];
      var combined := CombineIfSplit(entry);
      assert View() == Popped(s, key);
      value := Some(combined);
    }

    method CombineIfSplit(entry: Bytes) returns (value: Bytes)
      requires EntryOk(View(), entry)
      modifies this`strings
      ensures value == old(Decoded(strings, entry)) && strings == old(strings) - ToSet(KeysOf(entry))
    {
      if IsMeta(entry) {
        value := CombineChunks(entry);
      } else {
        assert strings - {} == strings;
        value := entry;
      }
    }

    /** Reads and deletes the chunks that a meta key lists, one after the other. */
    method CombineChunks(metaKey: Bytes) returns (value: Bytes)
      requires IsMeta(metaKey) && EntryOk(View(), metaKey)
      modifies this`strings
      ensures value == old(Decoded(strings, metaKey)) && strings == old(strings) - ToSet(KeysOf(metaKey))
    {
      var keys := Split(metaKey, SEPARATOR)[1..];
      value := [];
      assert strings - {} == strings;
      for i := 0 to |keys|
        invariant value == Combined(old(strings), keys[..i])
        invariant strings == old(strings) - ToSet(keys[..i])
      {
        NextCombined(old(strings), keys, i);
        value := value + strings[keys[i]];
        strings := strings - {keys[i]};
      }
      assert keys[..|keys|] == keys;
    }
  }

  // ----- Any sequence of operations -----

  datatype Operation = PutValue(key: string, value: Bytes) | GetValue(key: string)

  /** The values waiting in a plain queue. */
  function Waiting(queues: map<string, seq<Bytes>>, key: string): seq<Bytes> {
    if key in queues then queues[key] else []
  }

  /** One operation on plain first-in-first-out queues. */
  function AfterOperation(queues: map<string, seq<Bytes>>, op: Operation): map<string, seq<Bytes>> {
    match op
    case PutValue(k, v) => queues[k := Waiting(queues, k) + [v]]
    case GetValue(k) => if Waiting(queues, k) == [] then queues else queues[k := queues[k][1..]]
  }

  /** What a sequence of operations on plain queues yields. */
  function FifoOutputs(queues: map<string, seq<Bytes>>, ops: seq<Operation>): seq<Option<Bytes>>
    decreases |ops|
  {
    if ops == [] then []
    else
      var later := FifoOutputs(AfterOperation(queues, ops[0]), ops[1..]);
      if ops[0].GetValue? then [Head(Waiting(queues, ops[0].key))] + later else later
  }

  /** What plain queues hold after a sequence of operations. */
  function AfterAll(queues: map<string, seq<Bytes>>, ops: seq<Operation>): map<string, seq<Bytes>>
    decreases |ops|
  {
    if ops == [] then queues else AfterAll(AfterOperation(queues, ops[0]), ops[1..])
  }

  /** The chunks of a value that was just taken are free again. */
  function KeysUsed(queues: map<string, seq<Bytes>>, op: Operation, size: nat): int
    requires size > 0
  {
    match op
    case PutValue(k, v) => KeysNeeded(v, size)
    case GetValue(k) => if Waiting(queues, k) == [] then 0 else 0 - KeysNeeded(queues[k][0], size)
  }

  /** Along the operations, every put finds enough of the `free` chunk keys. */
  predicate KeysSuffice(queues: map<string, seq<Bytes>>, ops: seq<Operation>, size: nat, free: int)
    requires size > 0
    decreases |ops|
  {
    ops != [] ==>
      var left := free - KeysUsed(queues, ops[0], size);
      left >= 0 && KeysSuffice(AfterOperation(queues, ops[0]), ops[1..], size, left)
  }

  ghost predicate Serialised(ops: seq<Operation>, size: nat, pool: set<string>) {
    forall i :: 0 <= i < |ops| && ops[i].PutValue? ==>
      ops[i].key !in pool && (|ops[i].value| <= size ==> !IsMeta(ops[i].value))
  }

  ghost predicate SameQueues(s: Store, queues: map<string, seq<Bytes>>) {
    forall k :: Contents(s, k) == Waiting(queues, k)
  }

  /** The store holds what the queues hold, and the operations can be carried out. */
  ghost predicate InStep(s: Store, queues: map<string, seq<Bytes>>, ops: seq<Operation>, size: nat)
    requires size > 0
  {
    && s.strings.Keys <= s.pool && SameQueues(s, queues)
    && Serialised(ops, size, s.pool) && KeysSuffice(queues, ops, size, |FreeKeys(s)|)
  }

  ghost predicate Ready(redis: RedisInterface, queues: map<string, seq<Bytes>>, ops: seq<Operation>)
    reads redis
  {
    redis.Valid() && InStep(redis.View(), queues, ops, redis.chunkSize)
  }

  lemma SerialisedTail(ops: seq<Operation>, size: nat, pool: set<string>)
    requires Serialised(ops, size, pool) && ops != []
    ensures Serialised(ops[1..], size, pool)
  {
  }

  lemma SameAfterPut(s: Store, s': Store, queues: map<string, seq<Bytes>>, key: string, value: Bytes)
    requires SameQueues(s, queues) && Appends(s, s', key, value)
    ensures SameQueues(s', AfterOperation(queues, PutValue(key, value)))
  {
    assert Contents(s, key) == Waiting(queues, key);
  }

  lemma SameAfterGet(s: Store, s': Store, queues: map<string, seq<Bytes>>, key: string)
    requires SameQueues(s, queues) && Takes(s, s', key)
    ensures SameQueues(s', AfterOperation(queues, GetValue(key)))
  {
    assert Contents(s, key) == Waiting(queues, key);
  }

  lemma PutInStep(s: Store, s': Store, queues: map<string, seq<Bytes>>, ops: seq<Operation>, size: nat)
    requires size > 0 && ops != [] && ops[0].PutValue? && InStep(s, queues, ops, size)
    requires s'.pool == s.pool && s'.strings.Keys <= s.strings.Keys + s.pool
    requires Appends(s, s', ops[0].key, ops[0].value)
    requires |FreeKeys(s')| + KeysNeeded(ops[0].value, size) == |FreeKeys(s)|
    ensures InStep(s', AfterOperation(queues, ops[0]), ops[1..], size)
  {
    SerialisedTail(ops, size, s.pool);
    SameAfterPut(s, s', queues, ops[0].key, ops[0].value);
  }

  lemma GetInStep(s: Store, s': Store, queues: map<string, seq<Bytes>>, ops: seq<Operation>, size: nat, out: Option<Bytes>)
    requires size > 0 && ops != [] && ops[0].GetValue? && InStep(s, queues, ops, size)
    requires s'.pool == s.pool && s'.strings.Keys <= s.strings.Keys
    requires Takes(s, s', ops[0].key) && out == Head(Contents(s, ops[0].key))
    requires |FreeKeys(s')| == |FreeKeys(s)| + (if out.None? then 0 else KeysNeeded(out.value, size))
    ensures InStep(s', AfterOperation(queues, ops[0]), ops[1..], size) && out == Head(Waiting(queues, ops[0].key))
  {
    assert Contents(s, ops[0].key) == Waiting(queues, ops[0].key);
    SerialisedTail(ops, size, s.pool);
    SameAfterGet(s, s', queues, ops[0].key);
  }

  lemma StartsReady(redis: RedisInterface, ops: seq<Operation>)
    requires redis.Valid() && redis.strings == map[] && redis.lists == map[]
    requires Serialised(ops, redis.chunkSize, redis.chunkKeys)
    requires KeysSuffice(map[], ops, redis.chunkSize, |redis.chunkKeys|)
    ensures Ready(redis, map[], ops)
  {
    assert FreeKeys(redis.View()) == redis.chunkKeys;
  }

  ghost predicate Drained(queues: map<string, seq<Bytes>>) {
    forall k :: Waiting(queues, k) == []
  }

  /** A store that holds what empty queues hold is empty: no chunk and no entry is left behind. */
  lemma DrainedIsEmpty(s: Store, queues: map<string, seq<Bytes>>)
    requires ValidStore(s) && s.strings.Keys <= s.pool && SameQueues(s, queues)
    ensures Drained(queues) <==> s.lists == map[]
    ensures Drained(queues) ==> s.strings == map[]
  {
    if Drained(queues) {
      forall k
        ensures k !in s.lists
      {
        assert Contents(s, k) == Waiting(queues, k);
        assert |Queue(s, k)| == 0;
      }
      DrainedHasNoChunks(s);
      assert s.strings.Keys == {};
    } else {
      var k :| Waiting(queues, k) != [];
      assert Contents(s, k) == Waiting(queues, k);
    }
  }

  method RunPut(redis: RedisInterface, ghost queues: map<string, seq<Bytes>>, ops: seq<Operation>)
    requires ops != [] && ops[0].PutValue? && Ready(redis, queues, ops)
    modifies redis
    ensures Ready(redis, AfterOperation(queues, ops[0]), ops[1..])
  {
    ghost var s := redis.View();
    redis.QueuePut(ops[0].key, ops[0].value);
    PutInStep(s, redis.View(), queues, ops, redis.chunkSize);
  }

  method RunGet(redis: RedisInterface, ghost queues: map<string, seq<Bytes>>, ops: seq<Operation>)
    returns (out: Option<Bytes>)
    requires ops != [] && ops[0].GetValue? && Ready(redis, queues, ops)
    modifies redis
    ensures Ready(redis, AfterOperation(queues, ops[0]), ops[1..])
    ensures out == Head(Waiting(queues, ops[0].key))
  {
    ghost var s := redis.View();
    out := redis.QueueGet(ops[0].key);
    GetInStep(s, redis.View(), queues, ops, redis.chunkSize, out);
  }

  /**
   Any sequence of puts and gets on any queues yields what plain first-in-first-out queues yield:
   every value comes out once, in order and unchanged. Afterwards the queues hold the same values as
   the plain ones, and nothing is left in the database once those are drained.
   */
  method RunOperations(redis: RedisInterface, ops: seq<Operation>) returns (outputs: seq<Option<Bytes>>)
    requires redis.Valid() && redis.strings == map[] && redis.lists == map[]
    requires Serialised(ops, redis.chunkSize, redis.chunkKeys)
    requires KeysSuffice(map[], ops, redis.chunkSize, |redis.chunkKeys|)
    modifies redis
    ensures redis.Valid() && redis.strings.Keys <= redis.chunkKeys
    ensures outputs == FifoOutputs(map[], ops) && SameQueues(redis.View(), AfterAll(map[], ops))
    ensures Drained(AfterAll(map[], ops)) ==> redis.strings == map[] && redis.lists == map[]
  {
    outputs := [];
    var rest := ops;
    ghost var queues: map<string, seq<Bytes>> := map[];
    StartsReady(redis, ops);
    while rest != []
      invariant Ready(redis, queues, rest)
      invariant FifoOutputs(map[], ops) == outputs + FifoOutputs(queues, rest)
      invariant AfterAll(map[], ops) == AfterAll(queues, rest)
      decreases |rest|
    {
      if rest[0].PutValue? {
        RunPut(redis, queues, rest);
      } else {
        var out := RunGet(redis, queues, rest);
        outputs := outputs + [out];
      }
      queues := AfterOperation(queues, rest[0]);
      rest := rest[1..];
    }
    DrainedIsEmpty(redis.View(), queues);
  }
}
