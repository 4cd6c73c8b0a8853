/** The bound on a ZIP central directory, checked before any library parses it. */
module ZipDirectory {

  type Byte = b: nat | b < 256

  const END_RECORD: seq<Byte> := [0x50, 0x4B, 0x05, 0x06]
  const ENTRY: seq<Byte> := [0x50, 0x4B, 0x01, 0x02]

  /** Little-endian number in `raw[i..i + width]`. */
  function Little(raw: seq<Byte>, i: nat, width: nat): nat
    requires i + width <= |raw|
    decreases width
  {
    if width == 0 then 0 else raw[i] + 256 * Little(raw, i + 1, width - 1)
  }

  predicate Marks(raw: seq<Byte>, i: nat, signature: seq<Byte>) {
    i + |signature| <= |raw| && raw[i..i + |signature|] == signature
  }

  /** `raw.rfind(signature, start)`. */
  method FindLast(raw: seq<Byte>, signature: seq<Byte>, start: nat) returns (r: int)
    ensures -1 <= r && (r >= 0 ==> r >= start && Marks(raw, r, signature))
    ensures forall i: nat :: i > r && i >= start ==> !Marks(raw, i, signature)
  {
    r := |raw|;
    while r >= start
      invariant start - 1 <= r || r == |raw|
      invariant forall i: nat :: i > r && i >= start ==> !Marks(raw, i, signature)
      decreases r
    {
      if Marks(raw, r, signature) {
        return;
      }
      r := r - 1;
    }
    r := -1;
  }

  // ---------- The bytes ----------

  /** The two-byte and four-byte little-endian numbers at `i`. */
  ghost function Two(raw: seq<Byte>, i: nat): nat
    requires i + 2 <= |raw|
  {
    raw[i] as nat + 0x100 * (raw[i + 1] as nat)
  }

  ghost function Four(raw: seq<Byte>, i: nat): nat
    requires i + 4 <= |raw|
  {
    raw[i] as nat + 0x100 * (raw[i + 1] as nat) + 0x1_0000 * (raw[i + 2] as nat) + 0x100_0000 * (raw[i + 3] as nat)
  }

  lemma LittleIsTwo(raw: seq<Byte>, i: nat)
    requires i + 2 <= |raw|
    ensures Little(raw, i, 2) == Two(raw, i)
  {
    assert Little(raw, i + 1, 1) == raw[i + 1] + 256 * Little(raw, i + 2, 0);
  }

  lemma LittleIsFour(raw: seq<Byte>, i: nat)
    requires i + 4 <= |raw|
    ensures Little(raw, i, 4) == Four(raw, i)
  {
    LittleIsTwo(raw, i + 2);
    assert Little(raw, i + 1, 3) == raw[i + 1] + 256 * Little(raw, i + 2, 2);
  }

  // ---------- What is accepted ----------

  const WINDOW := 65535 + 22

  function SearchStart(raw: seq<Byte>): nat {
    if |raw| < WINDOW then 0 else |raw| - WINDOW
  }

  /** The four bytes that open an end record, and those that open an entry. */
  ghost predicate EndsAt(raw: seq<Byte>, i: nat) {
    i + 4 <= |raw| && raw[i] == 0x50 && raw[i + 1] == 0x4B && raw[i + 2] == 0x05 && raw[i + 3] == 0x06
  }

  ghost predicate EntryAt(raw: seq<Byte>, i: nat) {
    i + 4 <= |raw| && raw[i] == 0x50 && raw[i + 1] == 0x4B && raw[i + 2] == 0x01 && raw[i + 3] == 0x02
  }

  lemma MarksIff(raw: seq<Byte>, i: nat)
    ensures Marks(raw, i, END_RECORD) <==> EndsAt(raw, i)
    ensures Marks(raw, i, ENTRY) <==> EntryAt(raw, i)
  {
    if i + 4 <= |raw| {
      var s := raw[i..i + 4];
      assert s[0] == raw[i] && s[1] == raw[i + 1] && s[2] == raw[i + 2] && s[3] == raw[i + 3];
      assert s == [s[0], s[1], s[2], s[3]];
    }
  }

  /** The last end record, within a comment's length of the end. */
  ghost predicate LastEndRecord(raw: seq<Byte>, at: nat) {
    at + 22 + 0xFFFF >= |raw| && EndsAt(raw, at) && forall i: nat :: i > at ==> !EndsAt(raw, i)
  }

  datatype EndRecord = EndRecord(at: nat, disk: nat, centralDisk: nat, diskEntries: nat, totalEntries: nat,
                                 centralSize: nat, centralOffset: nat, commentSize: nat)

  function ReadEndRecord(raw: seq<Byte>, at: nat): EndRecord
    requires at + 22 <= |raw|
  {
    EndRecord(at, Little(raw, at + 4, 2), Little(raw, at + 6, 2), Little(raw, at + 8, 2), Little(raw, at + 10, 2),
              Little(raw, at + 12, 4), Little(raw, at + 16, 4), Little(raw, at + 20, 2))
  }

  /** One disk, no ZIP64 placeholder, nothing after the comment, few enough members, directory right before. */
  predicate Consistent(raw: seq<Byte>, e: EndRecord, maxMembers: nat) {
    && e.disk == 0 && e.centralDisk == 0 && e.diskEntries == e.totalEntries
    && e.totalEntries != 0xFFFF && e.centralSize != 0xFFFF_FFFF && e.centralOffset != 0xFFFF_FFFF
    && e.at + 22 + e.commentSize == |raw|
    && e.totalEntries <= maxMembers
    && e.centralOffset + e.centralSize == e.at
  }

  function EntrySize(raw: seq<Byte>, i: nat): nat
    requires i + 46 <= |raw|
  {
    46 + Little(raw, i + 28, 2) + Little(raw, i + 30, 2) + Little(raw, i + 32, 2)
  }

  /** An entry of 46 bytes, a name, extra data and a comment starts at `i`; its successor, or the end, is at `j`. */
  ghost predicate Spans(raw: seq<Byte>, i: nat, j: nat, end: nat) {
    && i + 46 <= end <= |raw| && EntryAt(raw, i)
    && var name, extra, comment := Two(raw, i + 28), Two(raw, i + 30), Two(raw, i + 32);
       j == i + 46 + name + extra + comment
  }

  lemma EntrySizeIs(raw: seq<Byte>, i: nat)
    requires i + 46 <= |raw|
    ensures EntrySize(raw, i) == 46 + Two(raw, i + 28) + Two(raw, i + 30) + Two(raw, i + 32)
  {
    LittleIsTwo(raw, i + 28);
    LittleIsTwo(raw, i + 30);
    LittleIsTwo(raw, i + 32);
  }

  /** Offsets of consecutive entries, from `offsets[0]` to the end of the last. */
  ghost predicate Tiling(raw: seq<Byte>, offsets: seq<nat>, end: nat) {
    |offsets| > 0 && forall k :: 0 <= k < |offsets| - 1 ==> Spans(raw, offsets[k], offsets[k + 1], end)
  }

  /** The region is tiled without gap or overlap by exactly `count` entries. */
  ghost predicate Tiled(raw: seq<Byte>, start: nat, end: nat, count: nat) {
    exists offsets: seq<nat> :: Tiling(raw, offsets, end) && |offsets| == count + 1 && offsets[0] == start && offsets[count] == end
  }

  /** The end record at `at`, byte by byte: disk numbers zero, both member counts alike, no ZIP64 placeholder,
      members within bounds, the directory right before the record and its comment right after. */
  ghost predicate Closes(raw: seq<Byte>, at: nat, maxMembers: nat)
    requires at + 22 <= |raw|
  {
    && Two(raw, at + 4) == 0 && Two(raw, at + 6) == 0
    && Two(raw, at + 8) == Two(raw, at + 10) && Two(raw, at + 10) != 0xFFFF && Two(raw, at + 10) <= maxMembers
    && Four(raw, at + 12) != 0xFFFF_FFFF && Four(raw, at + 16) != 0xFFFF_FFFF
    && Four(raw, at + 16) + Four(raw, at + 12) == at
    && at + 22 + Two(raw, at + 20) == |raw|
  }

  ghost predicate Acceptable(raw: seq<Byte>, maxMembers: nat) {
    exists at: nat :: LastEndRecord(raw, at) && at + 22 <= |raw| &&
      Closes(raw, at, maxMembers) && Tiled(raw, Four(raw, at + 16), at, Two(raw, at + 10))
  }

  lemma EndRecordIs(raw: seq<Byte>, at: nat, maxMembers: nat)
    requires at + 22 <= |raw|
    ensures var e := ReadEndRecord(raw, at);
      && (Consistent(raw, e, maxMembers) <==> Closes(raw, at, maxMembers))
      && e.centralOffset == Four(raw, at + 16) && e.totalEntries == Two(raw, at + 10)
  {
    hide Little, Two, Four;
    LittleIsTwo(raw, at + 4);
    LittleIsTwo(raw, at + 6);
    LittleIsTwo(raw, at + 8);
    LittleIsTwo(raw, at + 10);
    LittleIsFour(raw, at + 12);
    LittleIsFour(raw, at + 16);
    LittleIsTwo(raw, at + 20);
  }

  // ---------- Tilings ----------

  /** Two tilings of one region from the same start agree as far as both go. */
  lemma {:induction false} TilingsAgree(raw: seq<Byte>, a: seq<nat>, b: seq<nat>, end: nat, k: nat)
    requires Tiling(raw, a, end) && Tiling(raw, b, end) && a[0] == b[0] && k < |a| && k < |b|
    ensures a[k] == b[k]
  {
    if k > 0 {
      TilingsAgree(raw, a, b, end, k - 1);
      assert Spans(raw, a[k - 1], a[k], end) && Spans(raw, b[k - 1], b[k], end);
    }
  }

  lemma {:induction false} TilingGrows(raw: seq<Byte>, a: seq<nat>, end: nat, i: nat, j: nat)
    requires Tiling(raw, a, end) && i <= j < |a|
    ensures a[i] + 46 * (j - i) <= a[j]
  {
    if i < j {
      TilingGrows(raw, a, end, i, j - 1);
      assert Spans(raw, a[j - 1], a[j], end);
    }
  }

  /** A region has one tiling: its length is forced. */
  lemma TilingUnique(raw: seq<Byte>, start: nat, end: nat, m: nat, n: nat)
    requires Tiled(raw, start, end, m) && Tiled(raw, start, end, n)
    ensures m == n
  {
    var a :| Tiling(raw, a, end) && |a| == m + 1 && a[0] == start && a[m] == end;
    var b :| Tiling(raw, b, end) && |b| == n + 1 && b[0] == start && b[n] == end;
    if m <= n {
      TilingsAgree(raw, a, b, end, m);
      TilingGrows(raw, b, end, m, n);
    } else {
      TilingsAgree(raw, a, b, end, n);
      TilingGrows(raw, a, end, n, m);
    }
  }

  lemma TilingExtends(raw: seq<Byte>, offsets: seq<nat>, end: nat, next: nat)
    requires Tiling(raw, offsets, end) && Spans(raw, offsets[|offsets| - 1], next, end)
    ensures Tiling(raw, offsets + [next], end)
  {
    var more := offsets + [next];
    forall k | 0 <= k < |more| - 1 ensures Spans(raw, more[k], more[k + 1], end) {
      assert k < |offsets| - 1 ==> Spans(raw, offsets[k], offsets[k + 1], end);
    }
  }

  /** Once the walk has left the entries a tiling would need, no tiling exists. */
  lemma WalkDecides(raw: seq<Byte>, walked: seq<nat>, end: nat, count: nat)
    requires Tiling(raw, walked, end) && walked[|walked| - 1] <= end
    requires Tiled(raw, walked[0], end, count)
    ensures |walked| - 1 <= count
    ensures walked[|walked| - 1] < end ==>
      var last := walked[|walked| - 1];
      |walked| <= count && last + 46 <= end && last + 46 <= |raw| && EntryAt(raw, last) && last + EntrySize(raw, last) <= end
    ensures walked[|walked| - 1] == end ==> |walked| - 1 == count
  {
    var a :| Tiling(raw, a, end) && |a| == count + 1 && a[0] == walked[0] && a[count] == end;
    var n := |walked| - 1;
    if n <= count {
      TilingsAgree(raw, walked, a, end, n);
      if n < count {
        assert Spans(raw, a[n], a[n + 1], end);
        EntrySizeIs(raw, a[n]);
        TilingGrows(raw, a, end, n, count);
        TilingGrows(raw, a, end, n + 1, count);
      }
    } else {
      TilingsAgree(raw, walked, a, end, count);
      TilingGrows(raw, walked, end, count, n);
    }
  }

  // ---------- The check ----------

  /** The walk over the directory: every step moves the cursor at least 46 bytes on. */
  method WalkEntries(raw: seq<Byte>, start: nat, end: nat, total: nat, maxMembers: nat) returns (ok: bool)
    requires end <= |raw| && start <= end && total <= maxMembers
    ensures ok <==> Tiled(raw, start, end, total)
  {
    hide EntrySize, Two;
    var cursor, observed := start, 0;
    ghost var walked: seq<nat> := [start];
    while cursor < end
      invariant |walked| == observed + 1 && Tiling(raw, walked, end) && walked[0] == start && walked[observed] == cursor
      invariant observed <= maxMembers
      invariant Tiled(raw, start, end, total) ==> cursor <= end && observed <= total
      decreases end - cursor
    {
      MarksIff(raw, cursor);
      if cursor + 46 > end || raw[cursor..cursor + 4] != ENTRY {
        if Tiled(raw, start, end, total) {
          WalkDecides(raw, walked, end, total);
        }
        return false;
      }
      EntrySizeIs(raw, cursor);
      if Tiled(raw, start, end, total) {
        WalkDecides(raw, walked, end, total);
      }
      assert Spans(raw, cursor, cursor + EntrySize(raw, cursor), end);
      TilingExtends(raw, walked, end, cursor + EntrySize(raw, cursor));
      cursor := cursor + EntrySize(raw, cursor);
      walked := walked + [cursor];
      observed := observed + 1;
      if observed > maxMembers {
        return false;
      }
    }
    if cursor == end && Tiled(raw, start, end, total) {
      WalkDecides(raw, walked, end, total);
    }
    return cursor == end && observed == total;
  }

  /** `_preflight_zip_directory`: accepts exactly the acceptable archives. */
  method PreflightZipDirectory(raw: seq<Byte>, maxMembers: nat) returns (accepted: bool)
    ensures accepted <==> Acceptable(raw, maxMembers)
  {
    hide Tiled, Little, Closes, EndsAt, Two, Four;
    var at := FindLast(raw, END_RECORD, SearchStart(raw));
    if at < 0 || at + 22 > |raw| {
      OnlyLast(raw, at);
      return false;
    }
    OnlyLast(raw, at);
    var e := ReadEndRecord(raw, at);
    EndRecordIs(raw, at, maxMembers);
    if !Consistent(raw, e, maxMembers) {
      return false;
    }
    accepted := WalkEntries(raw, e.centralOffset, at, e.totalEntries, maxMembers);
  }

  lemma OnlyLast(raw: seq<Byte>, at: int)
    requires at >= 0 ==> at >= SearchStart(raw) && Marks(raw, at, END_RECORD)
    requires at < 0 ==> at == -1
    requires forall i: nat :: i > at && i >= SearchStart(raw) ==> !Marks(raw, i, END_RECORD)
    ensures forall other: nat :: LastEndRecord(raw, other) ==> other == at
    ensures at >= 0 ==> LastEndRecord(raw, at)
  {
    forall i: nat ensures Marks(raw, i, END_RECORD) <==> EndsAt(raw, i) {
      MarksIff(raw, i);
    }
    hide Marks, EndsAt;
    assert SearchStart(raw) == if |raw| < 22 + 0xFFFF then 0 else |raw| - 22 - 0xFFFF;
    forall other: nat | LastEndRecord(raw, other) ensures other == at {
      assert other <= at;
    }
  }
}
