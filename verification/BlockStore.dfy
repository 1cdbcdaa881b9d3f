/**
  The block store over a key-value database: big-endian heights in the keys, three writes per block, any
  of which may fail.  RLP is taken as a faithful encoding, so a value is what was encoded; encoding can fail.
*/
module BlockStores {
  import opened Quorums
  import opened Votes
  import opened Machine

  type Byte = b: int | 0 <= b < 256
  type Bytes = seq<Byte>

  const UINT64: nat := 0x1_0000_0000_0000_0000

  type Height = h: int | 0 <= h < UINT64

  datatype Data = Raw(bytes: Bytes) | BlockData(full: FullBlock) | CommitData(commit: Commit)

  type Database = map<Bytes, Data>

  // ---- Big-endian numbers ----

  function BigEndian(n: nat, width: nat): Bytes {
    if width == 0 then [] else BigEndian(n / 256, width - 1) + [n % 256]
  }

  function Number(bytes: Bytes): nat {
    if bytes == [] then 0 else Number(bytes[..|bytes| - 1]) * 256 + bytes[|bytes| - 1]
  }

  function Range(width: nat): nat {
    if width == 0 then 1 else 256 * Range(width - 1)
  }

  /** Reading back what was written gives the number, truncated to the width. */
  lemma {:induction false} BigEndianRoundTrip(n: nat, width: nat)
    ensures |BigEndian(n, width)| == width
    ensures n < Range(width) ==> Number(BigEndian(n, width)) == n
  {
    if width > 0 {
      BigEndianRoundTrip(n / 256, width - 1);
      assert BigEndian(n, width)[..width - 1] == BigEndian(n / 256, width - 1);
    }
  }

  lemma EightBytes()
    ensures Range(8) == UINT64
  {
    assert Range(1) == 256 && Range(2) == 0x1_0000 && Range(3) == 0x100_0000 && Range(4) == 0x1_0000_0000;
    assert Range(5) == 0x100_0000_0000 && Range(6) == 0x1_0000_0000_0000 && Range(7) == 0x100_0000_0000_0000;
  }

  // ---- Keys ----

  const BLOCK: Bytes := [98, 108, 111, 99, 107]
  const COMMIT_KEY: Bytes := [99, 111, 109, 109, 105, 116]
  const HEIGHT: Bytes := [104, 101, 105, 103, 104, 116]

  function BlockKey(h: Height): Bytes {
    BLOCK + BigEndian(h, 8)
  }

  function CommitKey(h: Height): Bytes {
    COMMIT_KEY + BigEndian(h, 8)
  }

  /** No two keys the store uses collide. */
  lemma KeysApart(h: Height, k: Height)
    ensures BlockKey(h) == BlockKey(k) ==> h == k
    ensures CommitKey(h) == CommitKey(k) ==> h == k
    ensures BlockKey(h) != CommitKey(k) && BlockKey(h) != HEIGHT && CommitKey(h) != HEIGHT
  {
    EightBytes();
    BigEndianRoundTrip(h, 8);
    BigEndianRoundTrip(k, 8);
    assert BlockKey(h)[5..] == BigEndian(h, 8) && BlockKey(k)[5..] == BigEndian(k, 8);
    assert CommitKey(h)[6..] == BigEndian(h, 8) && CommitKey(k)[6..] == BigEndian(k, 8);
  }

  // ---- Reading ----

  datatype Loaded<T> = Missing | Corrupt | Found(value: T)

  function HeightOf(db: Database): Height {
    EightBytes();
    if HEIGHT in db && db[HEIGHT].Raw? && |db[HEIGHT].bytes| == 8 then
      BoundedNumber(db[HEIGHT].bytes);
      Number(db[HEIGHT].bytes)
    else 0
  }

  lemma {:induction false} BoundedNumber(bytes: Bytes)
    ensures Number(bytes) < Range(|bytes|)
  {
    if bytes != [] { BoundedNumber(bytes[..|bytes| - 1]); }
  }

  function BlockAt(db: Database, h: Height): Loaded<FullBlock> {
    if BlockKey(h) !in db then Missing
    else if db[BlockKey(h)].BlockData? then Found(db[BlockKey(h)].full)
    else Corrupt
  }

  function CommitAt(db: Database, h: Height): Loaded<Commit> {
    if CommitKey(h) !in db then Missing
    else if db[CommitKey(h)].CommitData? then Found(db[CommitKey(h)].commit)
    else Corrupt
  }

  // ---- Writing ----

  /** How many of SaveBlock's steps get through before one fails: encode, put, encode, put, put. */
  type Progress = n: nat | n <= 5

  const ALL: Progress := 5

  /** Height() + 1 in a uint64. */
  function Following(h: Height): Height {
    if h + 1 == UINT64 then 0 else h + 1
  }

  predicate Contiguous(db: Database, b: FullBlock) {
    b.block.number == Following(HeightOf(db))
  }

  /** The database after SaveBlock has got so far; None where it panics. */
  function Saved(db: Database, b: FullBlock, c: Commit, done: Progress): Option<Database>
    requires b.block.number < UINT64
  {
    if !Contiguous(db, b) then None
    else
      var h := b.block.number;
      var db1 := if done >= 2 then db[BlockKey(h) := BlockData(b)] else db;
      var db2 := if done >= 4 then db1[CommitKey(h) := CommitData(c)] else db1;
      Some(if done >= 5 then db2[HEIGHT := Raw(BigEndian(h, 8))] else db2)
  }

  class DefaultBlockStore {
    var db: Database

    constructor ()
      ensures db == map[]
    {
      db := map[];
    }

    method Put(key: Bytes, data: Data, works: bool) returns (failed: bool)
      modifies this
      ensures failed == !works && db == if works then old(db)[key := data] else old(db)
    {
      if works {
        db := db[key := data];
      }
      return !works;
    }

    method Height() returns (h: Height)
      ensures h == HeightOf(db)
    {
      if HEIGHT !in db { return 0; }
      var data := db[HEIGHT];
      if !data.Raw? || |data.bytes| != 8 { return 0; }
      EightBytes();
      BoundedNumber(data.bytes);
      return Number(data.bytes);
    }

    method LoadBlock(h: Height) returns (r: Loaded<FullBlock>)
      ensures r == BlockAt(db, h)
    {
      if BlockKey(h) !in db { return Missing; }
      var data := db[BlockKey(h)];
      return if data.BlockData? then Found(data.full) else Corrupt;
    }

    method LoadBlockCommit(h: Height) returns (r: Loaded<Commit>)
      ensures r == CommitAt(db, h)
    {
      if CommitKey(h) !in db { return Missing; }
      var data := db[CommitKey(h)];
      return if data.CommitData? then Found(data.commit) else Corrupt;
    }

    /** `done`: how far the writes get; `panicked` is the contiguity check. */
    method SaveBlock(b: FullBlock, c: Commit, done: Progress) returns (panicked: bool)
      requires b.block.number < UINT64
      modifies this
      ensures panicked == Saved(old(db), b, c, done).None?
      ensures !panicked ==> Some(db) == Saved(old(db), b, c, done)
      ensures panicked ==> db == old(db)
    {
      hide HeightOf, BigEndian, BlockKey, CommitKey;
      var last := Height();
      if b.block.number != Following(last) { return true; }
      if done < 1 { return false; }
      var failed := Put(BlockKey(b.block.number), BlockData(b), done >= 2);
      if failed || done < 3 { return false; }
      failed := Put(CommitKey(b.block.number), CommitData(c), done >= 4);
      if failed { return false; }
      failed := Put(HEIGHT, Raw(BigEndian(b.block.number, 8)), done >= 5);
      return false;
    }
  }

  // ---- What the store holds ----

  datatype Entry = Entry(full: FullBlock, commit: Commit)

  /**
    The database holds exactly these blocks, under their numbers, up to its height; above it there may be
    leftovers.
  */
  ghost predicate Holds(db: Database, entries: seq<Entry>) {
    && |entries| < UINT64
    && HeightOf(db) == |entries|
    && forall i :: 0 <= i < |entries| ==>
         && entries[i].full.block.number == i + 1
         && BlockAt(db, i + 1) == Found(entries[i].full) && CommitAt(db, i + 1) == Found(entries[i].commit)
  }

  /** Only the last write moves the height. */
  lemma SavedHeight(db: Database, b: FullBlock, c: Commit, done: Progress)
    requires b.block.number < UINT64 && Contiguous(db, b)
    ensures HeightOf(Saved(db, b, c, done).value) == if done == ALL then b.block.number else HeightOf(db)
  {
    hide BigEndian, BlockKey, CommitKey;
    EightBytes();
    BigEndianRoundTrip(b.block.number, 8);
    KeysApart(b.block.number, b.block.number);
  }

  /** The writes of SaveBlock touch no entry but the one they are for. */
  lemma SavedReads(db: Database, b: FullBlock, c: Commit, done: Progress)
    requires b.block.number < UINT64 && Contiguous(db, b)
    ensures var n, t := b.block.number, Saved(db, b, c, done).value;
      && HeightOf(t) == (if done == ALL then n else HeightOf(db))
      && (forall h: Height :: h != n ==> BlockAt(t, h) == BlockAt(db, h) && CommitAt(t, h) == CommitAt(db, h))
      && (done == ALL ==> BlockAt(t, n) == Found(b) && CommitAt(t, n) == Found(c))
  {
    var n, t := b.block.number, Saved(db, b, c, done).value;
    SavedHeight(db, b, c, done);
    KeysApart(n, n);
    hide HeightOf, BigEndian, BlockKey, CommitKey, Following;
    forall h: Height | h != n
      ensures BlockAt(t, h) == BlockAt(db, h) && CommitAt(t, h) == CommitAt(db, h)
    {
      KeysApart(h, n);
      KeysApart(n, h);
    }
  }

  /** The height is a uint64: after the last one it starts over. */
  function Append(entries: seq<Entry>, e: Entry): seq<Entry> {
    if |entries| + 1 == UINT64 then [] else entries + [e]
  }

  /**
    Saving a block appends it when every write works, and otherwise leaves every block and commit up to the
    height loadable as before, whichever write fails.  It panics exactly on a block that does not follow.
  */
  lemma SavedHolds(db: Database, entries: seq<Entry>, b: FullBlock, c: Commit, done: Progress)
    requires Holds(db, entries) && b.block.number < UINT64
    ensures Saved(db, b, c, done).None? <==> b.block.number != Following(|entries|)
    ensures Saved(db, b, c, done).Some? ==>
      Holds(Saved(db, b, c, done).value, if done == ALL then Append(entries, Entry(b, c)) else entries)
  {
    if Contiguous(db, b) {
      SavedReads(db, b, c, done);
      hide BlockAt, CommitAt, HeightOf, Saved;
      var t := Saved(db, b, c, done).value;
      var after := Append(entries, Entry(b, c));
      if done == ALL && after != [] {
        forall i | 0 <= i < |after|
          ensures after[i].full.block.number == i + 1
          ensures BlockAt(t, i + 1) == Found(after[i].full) && CommitAt(t, i + 1) == Found(after[i].commit)
        {
          if i < |entries| { assert after[i] == entries[i]; }
        }
      }
    }
  }

  // ---- Every history of saves ----

  datatype Save = Save(full: FullBlock, commit: Commit, done: Progress)

  predicate Saves(saves: seq<Save>) {
    forall i :: 0 <= i < |saves| ==> saves[i].full.block.number < UINT64
  }

  /** The database after any sequence of calls; a call that panics leaves it alone. */
  function History(saves: seq<Save>): Database
    requires Saves(saves)
  {
    if saves == [] then map[]
    else
      var before := History(saves[..|saves| - 1]);
      var s := saves[|saves| - 1];
      var t := Saved(before, s.full, s.commit, s.done);
      if t.Some? then t.value else before
  }

  /** What such a history has stored: the blocks that followed on and whose writes all worked. */
  function Kept(saves: seq<Save>): seq<Entry> {
    if saves == [] then []
    else
      var before := Kept(saves[..|saves| - 1]);
      var s := saves[|saves| - 1];
      var follows := s.full.block.number == if |before| + 1 == UINT64 then 0 else |before| + 1;
      if follows && s.done == ALL then Append(before, Entry(s.full, s.commit)) else before
  }

  /** Whatever calls are made and whatever writes fail, the store holds exactly what it kept, with no gap. */
  lemma {:induction false} HistoryHolds(saves: seq<Save>)
    requires Saves(saves)
    ensures Holds(History(saves), Kept(saves))
  {
    if saves != [] {
      var before := saves[..|saves| - 1];
      var s := saves[|saves| - 1];
      HistoryHolds(before);
      SavedHolds(History(before), Kept(before), s.full, s.commit, s.done);
    }
  }

  /**
    In particular every height from 1 to Height() loads its own block and a commit, and nothing read there is
    corrupt.
  */
  lemma EveryHeightLoads(saves: seq<Save>, h: Height)
    requires Saves(saves) && 1 <= h <= HeightOf(History(saves))
    ensures BlockAt(History(saves), h).Found? && BlockAt(History(saves), h).value.block.number == h
    ensures CommitAt(History(saves), h).Found?
  {
    HistoryHolds(saves);
    hide BlockAt, CommitAt, HeightOf;
    assert Kept(saves)[h - 1].full.block.number == h;
  }

  // ---- The store behind the state machine ----

  /** The entries as the machine sees them. */
  function View(entries: seq<Entry>): seq<Stored> {
    seq(|entries|, i requires 0 <= i < |entries| => Stored(entries[i].full.block, entries[i].commit))
  }

  /** A save as both commit paths guard it: of a block above the stored height only. */
  function GuardedSave(db: Database, b: FullBlock, c: Commit, done: Progress): Option<Database>
    requires b.block.number < UINT64
  {
    if HeightOf(db) < b.block.number then Saved(db, b, c, done) else Some(db)
  }

  lemma StoreFollowsSave(db: Database, entries: seq<Entry>, s: Node, b: FullBlock, c: Commit)
    requires Holds(db, entries) && b.block.number < UINT64
    requires View(entries) == s.store && !s.failed
    ensures var t := Machine.SaveBlock(s, b.block, c);
      && (t.failed <==> GuardedSave(db, b, c, ALL).None?)
      && (!t.failed ==> exists more :: Holds(GuardedSave(db, b, c, ALL).value, more) && View(more) == t.store)
  {
    SavedHolds(db, entries, b, c, ALL);
    assert |View(entries)| == |entries|;
    assert View(entries + [Entry(b, c)]) == View(entries) + [Stored(b.block, c)];
  }

  datatype MachineSave = MachineSave(full: FullBlock, commit: Commit)

  predicate InRange(saves: seq<MachineSave>) {
    forall i :: 0 <= i < |saves| ==> saves[i].full.block.number < UINT64
  }

  /** The machine through a sequence of saves; once it has panicked it stays as it is. */
  function MachineAfter(s: Node, saves: seq<MachineSave>): Node {
    if saves == [] then s
    else
      var last := saves[|saves| - 1];
      Machine.SaveBlock(MachineAfter(s, saves[..|saves| - 1]), last.full.block, last.commit)
  }

  /** The database through the same saves, all writes working; None from the first panic on. */
  function DatabaseAfter(db: Database, saves: seq<MachineSave>): Option<Database>
    requires InRange(saves)
  {
    if saves == [] then Some(db)
    else
      var before := DatabaseAfter(db, saves[..|saves| - 1]);
      var last := saves[|saves| - 1];
      if before.None? then None else GuardedSave(before.value, last.full, last.commit, ALL)
  }

  /**
    While writes work, the database stays equal to the machine's store through any sequence of saves, and panics
    with it.
  */
  lemma {:induction false} StoreFollowsMachine(db: Database, entries: seq<Entry>, s: Node, saves: seq<MachineSave>)
    requires Holds(db, entries) && View(entries) == s.store && !s.failed && InRange(saves)
    ensures var t, u := MachineAfter(s, saves), DatabaseAfter(db, saves);
      && (t.failed <==> u.None?)
      && (u.Some? ==> exists more :: Holds(u.value, more) && View(more) == t.store)
  {
    if saves != [] {
      hide Holds, View, GuardedSave, Machine.SaveBlock;
      var before, last := saves[..|saves| - 1], saves[|saves| - 1];
      StoreFollowsMachine(db, entries, s, before);
      var t, u := MachineAfter(s, before), DatabaseAfter(db, before);
      if t.failed {
        FailedSaves(t, last.full.block, last.commit);
      } else {
        var more :| Holds(u.value, more) && View(more) == t.store;
        StoreFollowsSave(u.value, more, t, last.full, last.commit);
      }
    }
  }

  lemma FailedSaves(s: Node, b: Block, c: Commit)
    requires s.failed
    ensures Machine.SaveBlock(s, b, c) == s
  {
  }

  /**
    SaveBlock reports no write error, so the machine moves on whatever was written.  Saving the next block
    then goes through if and only if every write of this one worked, and panics if any of them failed.
  */
  lemma LostWriteStopsNext(db: Database, entries: seq<Entry>, b: FullBlock, c: Commit, done: Progress,
                           next: FullBlock, d: Commit, done': Progress)
    requires Holds(db, entries) && b.block.number == |entries| + 1
    requires next.block.number == |entries| + 2 < UINT64
    ensures Saved(db, b, c, done).Some?
    ensures GuardedSave(Saved(db, b, c, done).value, next, d, done').Some? <==> done == ALL
  {
    hide BlockAt, CommitAt, Saved;
    SavedHolds(db, entries, b, c, done);
    var t := Saved(db, b, c, done).value;
    SavedHolds(t, if done == ALL then Append(entries, Entry(b, c)) else entries, next, d, done');
  }

  // ---- A whole chain ----

  function SavesOf(store: seq<Stored>): seq<MachineSave> {
    seq(|store|, i requires 0 <= i < |store| =>
      MachineSave(FullBlock(store[i].block, store[i].commit), store[i].commit))
  }

  lemma NextIsHeld(db: Database, entries: seq<Entry>, store: seq<Stored>, last: Stored)
    requires Holds(db, entries) && View(entries) == store && last.block.number == |store| + 1 < UINT64
    ensures var u := GuardedSave(db, FullBlock(last.block, last.commit), last.commit, ALL);
      u.Some? && exists more :: Holds(u.value, more) && View(more) == store + [last]
  {
    hide BlockAt, CommitAt, Saved;
    var e := Entry(FullBlock(last.block, last.commit), last.commit);
    SavedHolds(db, entries, e.full, e.commit, ALL);
    assert |View(entries)| == |entries|;
    assert View(entries + [e]) == View(entries) + [last];
  }

  lemma SavesOfAppend(store: seq<Stored>, last: Stored)
    ensures SavesOf(store + [last]) == SavesOf(store) + [MachineSave(FullBlock(last.block, last.commit), last.commit)]
  {
  }

  lemma DatabaseMore(db: Database, saves: seq<MachineSave>, x: MachineSave)
    requires InRange(saves) && x.full.block.number < UINT64 && DatabaseAfter(db, saves).Some?
    ensures InRange(saves + [x])
    ensures DatabaseAfter(db, saves + [x]) == GuardedSave(DatabaseAfter(db, saves).value, x.full, x.commit, ALL)
  {
    hide GuardedSave;
    assert (saves + [x])[..|saves|] == saves;
  }

  /** A contiguous chain, saved block by block into an empty database, never panics and is held there exactly. */
  lemma {:induction false} ChainIsHeld(store: seq<Stored>)
    requires |store| < UINT64 && forall i :: 0 <= i < |store| ==> store[i].block.number == i + 1
    ensures InRange(SavesOf(store))
    ensures var u := DatabaseAfter(map[], SavesOf(store));
      u.Some? && exists entries :: Holds(u.value, entries) && View(entries) == store
  {
    if store == [] {
      assert SavesOf(store) == [];
      assert Holds(map[], []) && View([]) == store;
    } else {
      hide Holds, View, GuardedSave, DatabaseAfter, SavesOf, InRange;
      var front, last := store[..|store| - 1], store[|store| - 1];
      ChainIsHeld(front);
      var db := DatabaseAfter(map[], SavesOf(front)).value;
      var entries :| Holds(db, entries) && View(entries) == front;
      NextIsHeld(db, entries, front, last);
      SavesOfAppend(front, last);
      DatabaseMore(map[], SavesOf(front), MachineSave(FullBlock(last.block, last.commit), last.commit));
      assert front + [last] == store;
    }
  }
}
