/**
 * Original PDFs kept in blocks: whatever a transaction does on the way, every archive that is committed has
 * exactly its blocks, cut at fixed boundaries, so that the file can be put together again.
 */
module PdfArchive {
  import opened Prelude
  import opened MapSums
  import opened FiniteSets
  import opened KnowledgeTables
  import opened KnowledgeStatements
  import opened KnowledgeInvariants

  const BLOCK := 1048576

  datatype Archive = Archive(document: Id, subject: Id, uploader: Id, sourceHash: Hash, byteSize: int, pageCount: int, blockCount: int)

  predicate ArchiveCheck(row: Archive) {
    && 1 <= row.byteSize <= 104857600 && 1 <= row.pageCount <= 100
    && row.blockCount == (row.byteSize + 1048575) / BLOCK
  }

  /** The content revision an archive belongs to, as far as its guard looks at it. */
  datatype Revision = Revision(document: Id, subject: Id, uploader: Id, sourceHash: Hash, reservedPages: int)

  datatype BlockKey = BlockKey(revision: Id, number: int)

  predicate BlockCheck(key: BlockKey, size: int) {
    0 <= key.number <= 99 && 1 <= size <= BLOCK
  }

  /** `touched` are the archives whose completeness is checked when the transaction commits. */
  datatype Store = Store(revisions: map<Id, Revision>, archives: map<Id, Archive>, blocks: map<BlockKey, int>, touched: set<Id>)

  const EMPTY_STORE := Store(map[], map[], map[], {})

  ghost function Sizes(archives: map<Id, Archive>, slice: Slice): map<Id, int> {
    map a | a in archives && slice.Covers(archives[a].document, archives[a].subject, archives[a].uploader) :: archives[a].byteSize
  }

  function Cap(scope: Scope): int {
    match scope
    case Global => 2147483648
    case OfSubject(_) => 268435456
    case OfUploader(_) => 536870912
  }

  ghost predicate Room(archives: map<Id, Archive>, row: Archive, scope: Scope) {
    Total(Sizes(archives, SliceOf(scope))) + row.byteSize <= Cap(scope)
  }

  /** knowledge_pdf_guard */
  ghost function InsertArchive(s: Store, id: Id, row: Archive): Option<Store> {
    if !(id !in s.archives && ArchiveCheck(row) && id in s.revisions) then None else
    var target := s.revisions[id];
    :- Need((row.document, row.subject, row.uploader) == (target.document, target.subject, target.uploader));
    :- Need(row.sourceHash == target.sourceHash && row.pageCount == target.reservedPages);
    :- Need(Room(s.archives, row, Global) && Room(s.archives, row, OfSubject(row.subject)) && Room(s.archives, row, OfUploader(row.uploader)));
    Some(s.(archives := s.archives[id := row], touched := s.touched + {id}))
  }

  /** The size of a block of a file of `size` bytes. */
  function BlockSize(size: int, number: int): int {
    Min(BLOCK, size - number * BLOCK)
  }

  /** knowledge_pdf_block_guard */
  function InsertBlock(s: Store, key: BlockKey, size: int): Option<Store> {
    if !(key !in s.blocks && BlockCheck(key, size) && key.revision in s.archives) then None else
    var archive := s.archives[key.revision];
    :- Need(key.number < archive.blockCount && size == BlockSize(archive.byteSize, key.number));
    Some(s.(blocks := s.blocks[key := size], touched := s.touched + {key.revision}))
  }

  datatype Operation =
    | PutRevision(id: Id, revision: Revision)
    | DropRevision(id: Id)
    | AddArchive(id: Id, archive: Archive)
    | DropArchive(id: Id)
    | AddBlock(key: BlockKey, size: int)
    | DropBlock(key: BlockKey)

  function WithoutArchive(s: Store, id: Id): Store {
    s.(archives := s.archives - {id}, blocks := map k | k in s.blocks && k.revision != id :: s.blocks[k], touched := s.touched + {id})
  }

  ghost function Operate(s: Store, op: Operation): Option<Store> {
    match op
    case PutRevision(id, revision) =>
      :- Need(id in s.archives ==>
                (revision.document, revision.subject, revision.uploader)
                == (s.archives[id].document, s.archives[id].subject, s.archives[id].uploader));
      Some(s.(revisions := s.revisions[id := revision]))
    case DropRevision(id) => Some(WithoutArchive(s.(revisions := s.revisions - {id}), id))
    case AddArchive(id, row) => InsertArchive(s, id, row)
    case DropArchive(id) => Some(WithoutArchive(s, id))
    case AddBlock(key, size) => InsertBlock(s, key, size)
    case DropBlock(key) => Some(s.(blocks := s.blocks - {key}, touched := s.touched + {key.revision}))
  }

  ghost function OperateAll(s: Store, ops: seq<Operation>): Option<Store> {
    if ops == [] then Some(s) else
      var before :- OperateAll(s, ops[..|ops| - 1]);
      Operate(before, ops[|ops| - 1])
  }

  // knowledge_pdf_complete_guard

  ghost function BlocksOf(blocks: map<BlockKey, int>, id: Id): map<BlockKey, int> {
    map k | k in blocks && k.revision == id :: blocks[k]
  }

  ghost predicate Complete(s: Store, id: Id) {
    id in s.archives ==>
      && |BlocksOf(s.blocks, id)| == s.archives[id].blockCount
      && Total(BlocksOf(s.blocks, id)) == s.archives[id].byteSize
  }

  /** A transaction goes through if every operation is admitted and every touched archive is complete at the end. */
  ghost function Transact(s: Store, ops: seq<Operation>): Store {
    var end := OperateAll(s.(touched := {}), ops);
    if end.Some? && forall id :: id in end.value.touched ==> Complete(end.value, id) then end.value else s
  }

  ghost function Committed(transactions: seq<seq<Operation>>): Store {
    if transactions == [] then EMPTY_STORE else
      Transact(Committed(transactions[..|transactions| - 1]), transactions[|transactions| - 1])
  }

  // Within a transaction

  ghost predicate BlockFits(s: Store, key: BlockKey) {
    && key in s.blocks && key.revision in s.archives
    && 0 <= key.number < s.archives[key.revision].blockCount
    && s.blocks[key] == BlockSize(s.archives[key.revision].byteSize, key.number)
  }

  ghost predicate ArchivesFit(archives: map<Id, Archive>) {
    && (forall a :: a in archives ==> ArchiveCheck(archives[a]))
    && (forall scope :: Total(Sizes(archives, SliceOf(scope))) <= Cap(scope))
  }

  /** Every block fits its archive, the caps hold, and archives not touched are complete. */
  ghost predicate InTransaction(s: Store) {
    && (forall key :: key in s.blocks ==> BlockFits(s, key))
    && ArchivesFit(s.archives)
    && (forall id :: id !in s.touched ==> Complete(s, id))
  }

  lemma AddArchiveFits(archives: map<Id, Archive>, id: Id, row: Archive)
    requires ArchivesFit(archives) && id !in archives && ArchiveCheck(row)
    requires Room(archives, row, Global) && Room(archives, row, OfSubject(row.subject)) && Room(archives, row, OfUploader(row.uploader))
    ensures ArchivesFit(archives[id := row])
  {
    hide Total, Sizes, ArchiveCheck;
    forall scope ensures Total(Sizes(archives[id := row], SliceOf(scope))) <= Cap(scope) {
      ArchivePut(archives, id, row, SliceOf(scope));
      if SliceOf(scope).Covers(row.document, row.subject, row.uploader) {
        assert Room(archives, row, scope);
      }
    }
  }

  lemma ArchivePut(archives: map<Id, Archive>, id: Id, row: Archive, slice: Slice)
    requires id !in archives
    ensures Total(Sizes(archives[id := row], slice))
            == Total(Sizes(archives, slice)) + (if slice.Covers(row.document, row.subject, row.uploader) then row.byteSize else 0)
  {
    hide Total;
    var next := archives[id := row];
    if slice.Covers(row.document, row.subject, row.uploader) {
      assert Sizes(next, slice) == Sizes(archives, slice)[id := row.byteSize];
      TotalUpdate(Sizes(archives, slice), id, row.byteSize);
    } else {
      assert Sizes(next, slice) == Sizes(archives, slice);
    }
  }

  lemma DropArchiveFits(archives: map<Id, Archive>, id: Id)
    requires ArchivesFit(archives)
    ensures ArchivesFit(archives - {id})
  {
    hide Total;
    var next := archives - {id};
    forall scope ensures Total(Sizes(next, SliceOf(scope))) <= Cap(scope) {
      var slice := SliceOf(scope);
      if id in Sizes(archives, slice) {
        TotalRemove(Sizes(archives, slice), id);
        assert ArchiveCheck(archives[id]);
        assert Sizes(next, slice) == Sizes(archives, slice) - {id};
      } else {
        assert Sizes(next, slice) == Sizes(archives, slice);
      }
    }
  }

  lemma AddArchiveKeeps(s: Store, id: Id, row: Archive)
    requires InTransaction(s) && InsertArchive(s, id, row).Some?
    ensures InTransaction(InsertArchive(s, id, row).value)
  {
    hide Total, ArchivesFit, Room, ArchiveCheck, Sizes, BlockSize;
    var t := InsertArchive(s, id, row).value;
    AddArchiveFits(s.archives, id, row);
    forall key | key in t.blocks ensures BlockFits(t, key) {
      assert BlockFits(s, key);
    }
    forall other | other !in t.touched ensures Complete(t, other) {
      assert Complete(s, other);
    }
  }

  lemma WithoutArchiveKeeps(s: Store, id: Id)
    requires InTransaction(s)
    ensures InTransaction(WithoutArchive(s, id))
  {
    hide Total, ArchivesFit, BlockSize;
    var t := WithoutArchive(s, id);
    DropArchiveFits(s.archives, id);
    forall key | key in t.blocks ensures BlockFits(t, key) {
      assert BlockFits(s, key);
    }
    forall other | other !in t.touched ensures Complete(t, other) {
      assert Complete(s, other);
      assert BlocksOf(t.blocks, other) == BlocksOf(s.blocks, other);
    }
  }

  lemma BlockKeeps(s: Store, op: Operation)
    requires InTransaction(s) && (op.AddBlock? || op.DropBlock?) && Operate(s, op).Some?
    ensures InTransaction(Operate(s, op).value)
  {
    hide Total, ArchivesFit, BlockSize, WithoutArchive, InsertArchive, Complete;
    var t := Operate(s, op).value;
    forall key | key in t.blocks ensures BlockFits(t, key) {
      if key in s.blocks {
        assert BlockFits(s, key);
      }
    }
    forall other | other !in t.touched ensures Complete(t, other) {
      hide BlockFits;
      assert Complete(s, other);
      OtherBlocks(s, t, op.key, other);
    }
  }

  lemma OtherBlocks(s: Store, t: Store, key: BlockKey, other: Id)
    requires t.archives == s.archives && key.revision != other && t.blocks - {key} == s.blocks - {key}
    ensures Complete(t, other) <==> Complete(s, other)
  {
    hide Total;
    forall k: BlockKey | k.revision == other ensures k in t.blocks <==> k in s.blocks {
      assert k in t.blocks - {key} <==> k in s.blocks - {key};
    }
    forall k: BlockKey | k.revision == other && k in t.blocks ensures t.blocks[k] == s.blocks[k] {
      assert (t.blocks - {key})[k] == (s.blocks - {key})[k];
    }
    assert BlocksOf(t.blocks, other) == BlocksOf(s.blocks, other);
  }

  lemma RevisionKeeps(s: Store, t: Store)
    requires InTransaction(s) && t == s.(revisions := t.revisions)
    ensures InTransaction(t)
  {
    hide Total, ArchivesFit, BlockSize, BlocksOf;
    forall key | key in t.blocks ensures BlockFits(t, key) {
      assert BlockFits(s, key);
    }
    forall other | other !in t.touched ensures Complete(t, other) {
      assert Complete(s, other);
    }
  }

  lemma OperationKeeps(s: Store, op: Operation)
    requires InTransaction(s) && Operate(s, op).Some?
    ensures InTransaction(Operate(s, op).value)
  {
    hide InTransaction, InsertArchive, InsertBlock, WithoutArchive;
    match op {
      case PutRevision(_, _) => RevisionKeeps(s, Operate(s, op).value);
      case DropRevision(id) =>
        RevisionKeeps(s, s.(revisions := s.revisions - {id}));
        WithoutArchiveKeeps(s.(revisions := s.revisions - {id}), id);
      case AddArchive(id, row) => AddArchiveKeeps(s, id, row);
      case DropArchive(id) => WithoutArchiveKeeps(s, id);
      case AddBlock(_, _) => BlockKeeps(s, op);
      case DropBlock(_) => BlockKeeps(s, op);
    }
  }

  lemma {:induction false} OperationsKeep(s: Store, ops: seq<Operation>)
    requires InTransaction(s) && OperateAll(s, ops).Some?
    ensures InTransaction(OperateAll(s, ops).value)
    decreases |ops|
  {
    hide InTransaction, Operate;
    if ops != [] {
      OperationsKeep(s, ops[..|ops| - 1]);
      OperationKeeps(OperateAll(s, ops[..|ops| - 1]).value, ops[|ops| - 1]);
    }
  }

  // Committed archives

  ghost predicate Settled(s: Store) {
    InTransaction(s) && forall id :: Complete(s, id)
  }

  lemma TransactionSettles(s: Store, ops: seq<Operation>)
    requires Settled(s)
    ensures Settled(Transact(s, ops))
  {
    hide Complete, BlockFits, ArchivesFit, OperateAll;
    var begun := s.(touched := {});
    UntouchedStart(s);
    if OperateAll(begun, ops).Some? {
      OperationsKeep(begun, ops);
    }
  }

  lemma UntouchedStart(s: Store)
    requires Settled(s)
    ensures InTransaction(s.(touched := {}))
  {
    hide ArchivesFit, Total, BlocksOf;
    var begun := s.(touched := {});
    forall key | key in s.blocks ensures BlockFits(begun, key) {
      assert BlockFits(s, key);
    }
    forall id ensures Complete(begun, id) {
      assert Complete(s, id);
    }
  }

  lemma {:induction false} CommittedSettled(transactions: seq<seq<Operation>>)
    ensures Settled(Committed(transactions))
    decreases |transactions|
  {
    hide Transact, Complete;
    if transactions == [] {
      hide Total;
      forall scope ensures Sizes(map[], SliceOf(scope)) == map[] {
      }
      NothingStored();
    } else {
      hide Settled;
      CommittedSettled(transactions[..|transactions| - 1]);
      TransactionSettles(Committed(transactions[..|transactions| - 1]), transactions[|transactions| - 1]);
    }
  }

  lemma NothingStored()
    ensures Total<Id>(map[]) == 0 && forall id :: Complete(EMPTY_STORE, id)
  {
  }

  ghost function Numbers(n: nat): (r: set<int>)
    ensures |r| == n && forall i :: i in r <==> 0 <= i < n
  {
    if n == 0 then {} else Numbers(n - 1) + {n - 1}
  }

  ghost function NumbersOf(blocks: map<BlockKey, int>): set<int> {
    set k | k in blocks :: k.number
  }

  lemma {:induction false} NumbersCount(blocks: map<BlockKey, int>, id: Id)
    requires forall k :: k in blocks ==> k.revision == id
    ensures |NumbersOf(blocks)| == |blocks|
    decreases |blocks|
  {
    if blocks != map[] {
      var k :| k in blocks;
      var rest := blocks - {k};
      NumbersCount(rest, id);
      assert NumbersOf(blocks) == NumbersOf(rest) + {k.number};
      assert k.number !in NumbersOf(rest) by {
        forall l | l in rest ensures l.number != k.number {
          assert l != k;
        }
      }
      assert |rest.Keys| == |blocks.Keys| - 1;
    }
  }

  /** In every committed state an archive has exactly the blocks 0 to n-1, each of its canonical size, and the caps hold. */
  lemma CommittedArchivesAreWhole(transactions: seq<seq<Operation>>, id: Id, number: int)
    requires id in Committed(transactions).archives
    ensures var s := Committed(transactions);
            && (BlockKey(id, number) in s.blocks <==> 0 <= number < s.archives[id].blockCount)
            && (BlockKey(id, number) in s.blocks ==> s.blocks[BlockKey(id, number)] == BlockSize(s.archives[id].byteSize, number))
            && (forall scope :: Total(Sizes(s.archives, SliceOf(scope))) <= Cap(scope))
  {
    hide Committed, Total, Sizes;
    CommittedSettled(transactions);
    var s := Committed(transactions);
    assert Complete(s, id);
    AllBlocksThere(s, id);
    assert BlockKey(id, number) in s.blocks ==> BlockFits(s, BlockKey(id, number));
  }

  lemma AllBlocksThere(s: Store, id: Id)
    requires InTransaction(s) && id in s.archives && |BlocksOf(s.blocks, id)| == s.archives[id].blockCount
    ensures forall number :: 0 <= number < s.archives[id].blockCount ==> BlockKey(id, number) in s.blocks
  {
    hide Total, Sizes, BlockSize;
    assert ArchiveCheck(s.archives[id]);
    var mine, n := BlocksOf(s.blocks, id), s.archives[id].blockCount;
    NumbersCount(mine, id);
    forall i | i in NumbersOf(mine) ensures i in Numbers(n) {
      var k :| k in mine && k.number == i;
      assert BlockFits(s, k);
    }
    SubsetOfSameSize(NumbersOf(mine), Numbers(n));
    forall number | 0 <= number < n ensures BlockKey(id, number) in s.blocks {
      assert number in NumbersOf(mine);
      var k :| k in mine && k.number == number;
      assert k == BlockKey(id, number);
    }
  }

  /** The first `n` blocks of a file of `size` bytes. */
  ghost function FirstBlocks(id: Id, size: int, n: nat): map<BlockKey, int> {
    if n == 0 then map[] else FirstBlocks(id, size, n - 1)[BlockKey(id, n - 1) := BlockSize(size, n - 1)]
  }

  lemma {:induction false} FirstBlocksTotal(id: Id, size: int, n: nat)
    requires size > 0 && (n > 0 ==> (n - 1) * BLOCK < size)
    ensures Total(FirstBlocks(id, size, n)) == Min(n * BLOCK, size)
    ensures forall k :: k in FirstBlocks(id, size, n) <==> k.revision == id && 0 <= k.number < n
    ensures forall k :: k in FirstBlocks(id, size, n) ==> FirstBlocks(id, size, n)[k] == BlockSize(size, k.number)
    decreases n
  {
    hide Total;
    if n == 0 {
      EmptyTotal(FirstBlocks(id, size, n));
    } else {
      FirstBlocksTotal(id, size, n - 1);
      TotalUpdate(FirstBlocks(id, size, n - 1), BlockKey(id, n - 1), BlockSize(size, n - 1));
    }
  }

  /** Of the two clauses of the completeness check the count decides: the right number of blocks has the right sum. */
  lemma CountDecides(s: Store, id: Id)
    requires InTransaction(s) && id in s.archives
    ensures Complete(s, id) <==> |BlocksOf(s.blocks, id)| == s.archives[id].blockCount
  {
    hide Total, Sizes;
    var row := s.archives[id];
    assert ArchiveCheck(row);
    if |BlocksOf(s.blocks, id)| == row.blockCount {
      AllBlocksThere(s, id);
      FirstBlocksTotal(id, row.byteSize, row.blockCount);
      var mine, canonical := BlocksOf(s.blocks, id), FirstBlocks(id, row.byteSize, row.blockCount);
      forall k ensures k in mine <==> k in canonical {
        if k in mine {
          assert BlockFits(s, k);
        }
      }
      forall k | k in mine ensures mine[k] == canonical[k] {
        assert BlockFits(s, k);
      }
      assert mine == canonical;
    }
  }

  // The guards in place

  /** The archive tables during a transaction, and what they return to if it fails. */
  class Archives {
    var revisions: map<Id, Revision>
    var archives: map<Id, Archive>
    var blocks: map<BlockKey, int>
    var touched: set<Id>
    var savedRevisions: map<Id, Revision>
    var savedArchives: map<Id, Archive>
    var savedBlocks: map<BlockKey, int>

    constructor ()
      ensures State() == Saved() == EMPTY_STORE
    {
      revisions, archives, blocks, touched := map[], map[], map[], {};
      savedRevisions, savedArchives, savedBlocks := map[], map[], map[];
    }

    function State(): Store
      reads this
    {
      Store(revisions, archives, blocks, touched)
    }

    function Saved(): Store
      reads this
    {
      Store(savedRevisions, savedArchives, savedBlocks, {})
    }

    method SumSizes(slice: Slice) returns (total: int)
      ensures total == Total(Sizes(archives, slice))
    {
      hide Total;
      var todo := set a | a in archives && slice.Covers(archives[a].document, archives[a].subject, archives[a].uploader);
      ghost var left := Sizes(archives, slice);
      total := 0;
      while todo != {}
        invariant left.Keys == todo
        invariant forall a :: a in left ==> a in archives && left[a] == archives[a].byteSize
        invariant total + Total(left) == Total(Sizes(archives, slice))
        decreases |todo|
      {
        var a :| a in todo;
        TotalRemove(left, a);
        total, todo, left := total + archives[a].byteSize, todo - {a}, left - {a};
      }
      EmptyTotal(left);
    }

    method AddArchive(id: Id, row: Archive) returns (ok: bool)
      modifies this`archives, this`touched
      ensures var r := InsertArchive(old(State()), id, row);
              ok == r.Some? && State() == if ok then r.value else old(State())
    {
      hide Total, Sizes, ArchiveCheck;
      if id in archives || !ArchiveCheck(row) || id !in revisions {
        return false;
      }
      var target := revisions[id];
      if (row.document, row.subject, row.uploader) != (target.document, target.subject, target.uploader)
         || row.sourceHash != target.sourceHash || row.pageCount != target.reservedPages {
        return false;
      }
      var all := SumSizes(Everything);
      var ofSubject := SumSizes(SubjectSlice(row.subject));
      var ofUploader := SumSizes(UploaderSlice(row.uploader));
      if all + row.byteSize > 2147483648 || ofSubject + row.byteSize > 268435456 || ofUploader + row.byteSize > 536870912 {
        return false;
      }
      archives, touched := archives[id := row], touched + {id};
      return true;
    }

    method AddBlock(key: BlockKey, size: int) returns (ok: bool)
      modifies this`blocks, this`touched
      ensures var r := InsertBlock(old(State()), key, size);
              ok == r.Some? && State() == if ok then r.value else old(State())
      ensures ok ==> key.revision in archives
      ensures key.revision in archives && ArchiveCheck(archives[key.revision]) ==>
                (ok <==> key !in old(blocks) && PieceOf(archives[key.revision].byteSize, key.number, size))
      ensures old(InTransaction(State())) ==> InTransaction(State())
    {
      BlockIsPiece(State(), key, size);
      BlockKeepsTransaction(State(), key, size);
      hide InTransaction, PieceOf, ArchiveCheck;
      if key in blocks || !BlockCheck(key, size) || key.revision !in archives {
        return false;
      }
      var archive := archives[key.revision];
      if key.number >= archive.blockCount || size != Min(BLOCK, archive.byteSize - key.number * BLOCK) {
        return false;
      }
      blocks, touched := blocks[key := size], touched + {key.revision};
      return true;
    }

    method SumBlocks(id: Id) returns (total: int)
      ensures total == Total(BlocksOf(blocks, id))
    {
      hide Total;
      var todo := set k | k in blocks && k.revision == id;
      ghost var left := BlocksOf(blocks, id);
      total := 0;
      while todo != {}
        invariant left.Keys == todo
        invariant forall k :: k in left ==> k in blocks && left[k] == blocks[k]
        invariant total + Total(left) == Total(BlocksOf(blocks, id))
        decreases |todo|
      {
        var k :| k in todo;
        TotalRemove(left, k);
        total, todo, left := total + blocks[k], todo - {k}, left - {k};
      }
      EmptyTotal(left);
    }

    /** The deferred check of every touched archive; one that is incomplete undoes the whole transaction. */
    method Commit() returns (ok: bool)
      modifies this
      ensures ok <==> forall id :: id in old(touched) ==> Complete(old(State()), id)
      ensures State() == if ok then old(State()).(touched := {}) else old(Saved())
      ensures Saved() == State()
    {
      hide Total, BlocksOf;
      var todo := touched;
      ok := true;
      while todo != {} && ok
        invariant todo <= touched
        invariant ok ==> forall id :: id in touched && id !in todo ==> Complete(State(), id)
        invariant !ok ==> exists id :: id in touched && !Complete(State(), id)
        modifies {}
        decreases |todo|, ok
      {
        var id :| id in todo;
        if id in archives {
          var count := CountBlocks(id);
          var sum := SumBlocks(id);
          if count != archives[id].blockCount || sum != archives[id].byteSize {
            ok := false;
            assert !Complete(State(), id);
          }
        }
        todo := todo - {id};
      }
      if ok {
        savedRevisions, savedArchives, savedBlocks, touched := revisions, archives, blocks, {};
      } else {
        revisions, archives, blocks, touched := savedRevisions, savedArchives, savedBlocks, {};
      }
    }

    method CountBlocks(id: Id) returns (count: nat)
      ensures count == |BlocksOf(blocks, id)|
    {
      var mine := map k | k in blocks && k.revision == id :: blocks[k];
      assert mine == BlocksOf(blocks, id);
      count := |mine|;
    }
  }

  // Files

  type Bytes = seq<bv8>

  /** A file cut at the block boundaries. */
  function Split(file: Bytes): seq<Bytes>
    decreases |file|
  {
    if file == [] then [] else if |file| <= BLOCK then [file] else [file[..BLOCK]] + Split(file[BLOCK..])
  }

  function Joined(blocks: seq<Bytes>): Bytes
    decreases |blocks|
  {
    if blocks == [] then [] else blocks[0] + Joined(blocks[1..])
  }

  /** Blocks of these sizes, as the guards demand them of an archive. */
  predicate Canonical(blocks: seq<Bytes>, size: int) {
    && |blocks| == (size + 1048575) / BLOCK
    && forall i | 0 <= i < |blocks| :: |blocks[i]| == BlockSize(size, i)
  }

  /** Cutting a file gives blocks that the guards admit, and joining them gives the file back. */
  lemma {:induction false} SplitIsCanonical(file: Bytes)
    ensures Canonical(Split(file), |file|) && Joined(Split(file)) == file
    decreases |file|
  {
    if |file| > BLOCK {
      var rest := Split(file[BLOCK..]);
      SplitIsCanonical(file[BLOCK..]);
      assert Split(file)[1..] == rest;
      forall i | 0 <= i < |Split(file)| ensures |Split(file)[i]| == BlockSize(|file|, i) {
        if i > 0 {
          assert Split(file)[i] == rest[i - 1];
        }
      }
    } else if file != [] {
      assert [file][1..] == [];
    }
  }

  /** What cutting any file of this size puts at this place. */
  ghost predicate PieceOf(size: int, number: int, piece: int) {
    forall file: Bytes :: |file| == size ==> 0 <= number < |Split(file)| && |Split(file)[number]| == piece
  }

  lemma PieceMeans(size: nat, number: int, piece: int)
    ensures PieceOf(size, number, piece) <==> 0 <= number < (size + 1048575) / BLOCK && piece == BlockSize(size, number)
  {
    forall file: Bytes | |file| == size ensures Canonical(Split(file), size) {
      SplitIsCanonical(file);
    }
    var file: Bytes := seq(size, i => 0);
    assert Canonical(Split(file), size);
  }

  /** The block guard admits exactly the pieces a file of the archive's size is cut into, each once. */
  lemma BlockIsPiece(s: Store, key: BlockKey, size: int)
    ensures key.revision in s.archives && ArchiveCheck(s.archives[key.revision]) ==>
              (InsertBlock(s, key, size).Some? <==> key !in s.blocks && PieceOf(s.archives[key.revision].byteSize, key.number, size))
  {
    hide PieceOf;
    if key.revision in s.archives && ArchiveCheck(s.archives[key.revision]) {
      PieceMeans(s.archives[key.revision].byteSize, key.number, size);
    }
  }

  lemma BlockKeepsTransaction(s: Store, key: BlockKey, size: int)
    ensures InTransaction(s) && InsertBlock(s, key, size).Some? ==> InTransaction(InsertBlock(s, key, size).value)
  {
    hide InTransaction, InsertBlock;
    if InTransaction(s) && InsertBlock(s, key, size).Some? {
      BlockKeeps(s, Operation.AddBlock(key, size));
    }
  }

  /** Blocks of the sizes an archive demands are the cut of the file they join to. */
  lemma {:induction false} CanonicalIsSplit(blocks: seq<Bytes>, size: nat)
    requires Canonical(blocks, size)
    ensures |Joined(blocks)| == size && Split(Joined(blocks)) == blocks
    decreases |blocks|
  {
    if blocks != [] {
      var rest := blocks[1..];
      assert |blocks[0]| == Min(BLOCK, size);
      if size > BLOCK {
        forall i | 0 <= i < |rest| ensures |rest[i]| == BlockSize(size - BLOCK, i) {
          assert rest[i] == blocks[i + 1];
        }
        CanonicalIsSplit(rest, size - BLOCK);
        assert Joined(blocks)[..BLOCK] == blocks[0] && Joined(blocks)[BLOCK..] == Joined(rest);
        assert blocks == [blocks[0]] + rest;
      } else {
        assert rest == [];
        assert Joined(blocks) == blocks[0];
        assert blocks == [blocks[0]];
      }
    }
  }
}
