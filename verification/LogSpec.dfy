/** The on-disk write-ahead log of kernel/log.c: what a disk means after recovery, and every
    disk state a commit or a recovery passes through, one block write at a time. */
module LogSpec {
  import opened Blocks
  import opened Seqs

  const MAXOPBLOCKS: nat := 10
  const LOGSIZE: nat := MAXOPBLOCKS * 3

  type Disk = map<nat, Block>

  /** The log occupies blocks start .. start + size - 1; the first one is the header. */
  datatype Layout = Layout(start: nat, size: nat) {
    predicate InLog(b: nat) { start <= b < start + size }

    /** log.start + tail + 1 */
    function Slot(tail: nat): (b: nat) { start + tail + 1 }
  }

  /** A block list that fits the log: distinct home blocks of the disk, one slot for each. */
  predicate Loggable(l: Layout, d: Disk, blocks: seq<nat>)
  {
    && |blocks| <= LOGSIZE && |blocks| < l.size
    && Distinct(blocks)
    && (forall i :: 0 <= i < |blocks| ==> blocks[i] in d && !l.InLog(blocks[i]) && blocks[i] < WORD_LIMIT)
    && (forall b :: l.start <= b < l.start + l.size ==> b in d)
  }

  /** Whether a list is loggable depends only on which blocks exist. */
  lemma LoggableKeys(l: Layout, d: Disk, e: Disk, blocks: seq<nat>)
    requires Loggable(l, d, blocks) && d.Keys == e.Keys
    ensures Loggable(l, e, blocks) && Loggable(l, e, []) && l.start in e
  {
    assert l.InLog(l.start);
  }

  lemma LoggableAppend(l: Layout, d: Disk, blocks: seq<nat>, b: nat)
    requires Loggable(l, d, blocks) && b in d && !l.InLog(b) && b < WORD_LIMIT && b !in blocks
    requires |blocks| < LOGSIZE && |blocks| + 1 < l.size
    ensures Loggable(l, d, blocks + [b])
  {
  }

  // The header block: word 0 is n, words 1..n are the block numbers.

  function SetEntries(b: Block, blocks: seq<nat>, k: nat): (r: Block)
    requires k <= |blocks| <= LOGSIZE && forall i :: 0 <= i < |blocks| ==> blocks[i] < WORD_LIMIT
  {
    if k == 0 then b else SetWord(SetEntries(b, blocks, k - 1), k, blocks[k - 1])
  }

  /** The header block after write_head: words beyond n keep their old value. */
  function SetHeader(b: Block, blocks: seq<nat>): (r: Block)
    requires |blocks| <= LOGSIZE && forall i :: 0 <= i < |blocks| ==> blocks[i] < WORD_LIMIT
  {
    SetEntries(SetWord(b, 0, |blocks|), blocks, |blocks|)
  }

  /** lh.block[0..n] as read_head takes it out of the header block; a count that does not fit
      the structure is not a header. */
  function Header(b: Block): (blocks: seq<nat>)
    ensures |blocks| <= LOGSIZE
  {
    if Word(b, 0) <= LOGSIZE then seq(Word(b, 0), i requires 0 <= i < LOGSIZE => Word(b, i + 1)) else []
  }

  lemma {:induction false} EntriesWords(b: Block, blocks: seq<nat>, k: nat, j: nat)
    requires k <= |blocks| <= LOGSIZE && forall i :: 0 <= i < |blocks| ==> blocks[i] < WORD_LIMIT
    requires j < NWORDS
    ensures Word(SetEntries(b, blocks, k), j) == if 1 <= j <= k then blocks[j - 1] else Word(b, j)
  {
    if k > 0 {
      EntriesWords(b, blocks, k - 1, j);
      WordOfSetWord(SetEntries(b, blocks, k - 1), k, blocks[k - 1], j);
    }
  }

  /** read_head returns exactly the list write_head stored. */
  lemma HeaderRoundTrip(b: Block, blocks: seq<nat>)
    requires |blocks| <= LOGSIZE && forall i :: 0 <= i < |blocks| ==> blocks[i] < WORD_LIMIT
    ensures Header(SetHeader(b, blocks)) == blocks && Word(SetHeader(b, blocks), 0) == |blocks|
  {
    var h := SetWord(b, 0, |blocks|);
    var r := SetHeader(b, blocks);
    WordOfSetWord(b, 0, |blocks|, 0);
    EntriesWords(h, blocks, |blocks|, 0);
    assert |Header(r)| == |blocks|;
    forall j | 0 <= j < |blocks| ensures Header(r)[j] == blocks[j] {
      EntriesWords(h, blocks, |blocks|, j + 1);
    }
  }

  // Disk states.

  /** The disk after write_log has filled the first k slots. */
  function Logged(l: Layout, d: Disk, view: Disk, blocks: seq<nat>, k: nat): (r: Disk)
    requires k <= |blocks| && forall i :: 0 <= i < |blocks| ==> blocks[i] in view
  {
    if k == 0 then d else Logged(l, d, view, blocks, k - 1)[l.Slot(k - 1) := view[blocks[k - 1]]]
  }

  /** The disk after install_trans has copied the first k slots home. */
  function Installed(l: Layout, d: Disk, blocks: seq<nat>, k: nat): (r: Disk)
    requires k <= |blocks| && Loggable(l, d, blocks)
  {
    if k == 0 then d else Installed(l, d, blocks, k - 1)[blocks[k - 1] := d[l.Slot(k - 1)]]
  }

  /** The disks of the first k writes of write_log, in order. */
  ghost function LogTrace(l: Layout, d: Disk, view: Disk, blocks: seq<nat>, k: nat): (r: seq<Disk>)
    requires k <= |blocks| && forall i :: 0 <= i < |blocks| ==> blocks[i] in view
    ensures |r| == k && forall i :: 0 <= i < k ==> r[i] == Logged(l, d, view, blocks, i + 1)
  {
    if k == 0 then [] else LogTrace(l, d, view, blocks, k - 1) + [Logged(l, d, view, blocks, k)]
  }

  /** The disks of the first k writes of install_trans, in order. */
  ghost function InstallTrace(l: Layout, d: Disk, blocks: seq<nat>, k: nat): (r: seq<Disk>)
    requires k <= |blocks| && Loggable(l, d, blocks)
    ensures |r| == k && forall i :: 0 <= i < k ==> r[i] == Installed(l, d, blocks, i + 1)
  {
    if k == 0 then [] else InstallTrace(l, d, blocks, k - 1) + [Installed(l, d, blocks, k)]
  }

  function WithHeader(l: Layout, d: Disk, blocks: seq<nat>): (r: Disk)
    requires Loggable(l, d, blocks)
  {
    d[l.start := SetHeader(d[l.start], blocks)]
  }

  /** The disk right after the header write of a commit. */
  function Committed(l: Layout, d: Disk, view: Disk, blocks: seq<nat>): (r: Disk)
    requires Loggable(l, d, blocks) && d.Keys == view.Keys
    ensures r.Keys == d.Keys
  {
    LoggedKeys(l, d, view, blocks, |blocks|);
    WithHeader(l, Logged(l, d, view, blocks, |blocks|), blocks)
  }

  /** The disk after the first k block writes of a commit: n log slots, the header, n home
      blocks, and the emptied header. */
  function CommitDisk(l: Layout, d: Disk, view: Disk, blocks: seq<nat>, k: nat): (r: Disk)
    requires Loggable(l, d, blocks) && d.Keys == view.Keys && k <= 2 * |blocks| + 2
  {
    var n := |blocks|;
    if k <= n then Logged(l, d, view, blocks, k)
    else
      var e := Committed(l, d, view, blocks);
      if k <= 2 * n + 1 then Installed(l, e, blocks, k - n - 1)
      else
        InstalledKeys(l, e, blocks, n);
        WithHeader(l, Installed(l, e, blocks, n), [])
  }

  /** The on-disk header is a list the recovery code can process. */
  predicate Recoverable(l: Layout, d: Disk)
  {
    l.start in d && Word(d[l.start], 0) <= LOGSIZE && Loggable(l, d, Header(d[l.start]))
  }

  /** The disk after the first k block writes of recover_from_log. */
  function RecoveryDisk(l: Layout, d: Disk, k: nat): (r: Disk)
    requires Recoverable(l, d) && k <= |Header(d[l.start])| + 1
  {
    var blocks := Header(d[l.start]);
    if k <= |blocks| then Installed(l, d, blocks, k)
    else
      InstalledKeys(l, d, blocks, |blocks|);
      WithHeader(l, Installed(l, d, blocks, |blocks|), [])
  }

  /** The blocks outside the log. */
  function Home(l: Layout, d: Disk): (r: Disk) { map b | b in d && !l.InLog(b) :: d[b] }

  /** What the home blocks are once recovery has completed. */
  function Recovered(l: Layout, d: Disk): (r: Disk)
    requires Recoverable(l, d)
  {
    Home(l, Installed(l, d, Header(d[l.start]), |Header(d[l.start])|))
  }

  /** The home blocks with the logged blocks replaced by their cached contents. */
  function Update(home: Disk, view: Disk, blocks: seq<nat>): (r: Disk)
    requires home.Keys <= view.Keys
  {
    map b | b in home :: if b in blocks then view[b] else home[b]
  }

  // Pointwise facts.

  ghost predicate Among(b: nat, blocks: seq<nat>, k: nat)
    requires k <= |blocks|
  {
    exists i :: 0 <= i < k && blocks[i] == b
  }

  lemma {:induction false} LoggedKeys(l: Layout, d: Disk, view: Disk, blocks: seq<nat>, k: nat)
    requires k <= |blocks| && Loggable(l, d, blocks) && d.Keys == view.Keys
    ensures Logged(l, d, view, blocks, k).Keys == d.Keys
  {
    if k > 0 {
      LoggedKeys(l, d, view, blocks, k - 1);
      assert l.InLog(l.Slot(k - 1));
    }
  }

  lemma {:induction false} LoggedOther(l: Layout, d: Disk, view: Disk, blocks: seq<nat>, k: nat, b: nat)
    requires k <= |blocks| && Loggable(l, d, blocks) && d.Keys == view.Keys
    requires b in d && !(l.start < b <= l.start + k)
    ensures b in Logged(l, d, view, blocks, k) && Logged(l, d, view, blocks, k)[b] == d[b]
  {
    if k > 0 { LoggedOther(l, d, view, blocks, k - 1, b); }
  }

  lemma {:induction false} LoggedSlot(l: Layout, d: Disk, view: Disk, blocks: seq<nat>, k: nat, i: nat)
    requires i < k <= |blocks| && Loggable(l, d, blocks) && d.Keys == view.Keys
    ensures l.Slot(i) in Logged(l, d, view, blocks, k)
    ensures Logged(l, d, view, blocks, k)[l.Slot(i)] == view[blocks[i]]
  {
    if i < k - 1 { LoggedSlot(l, d, view, blocks, k - 1, i); }
  }

  lemma LoggedAt(l: Layout, d: Disk, view: Disk, blocks: seq<nat>, k: nat)
    requires k <= |blocks| && Loggable(l, d, blocks) && d.Keys == view.Keys
    ensures Logged(l, d, view, blocks, k).Keys == d.Keys
    ensures forall i :: 0 <= i < k ==> Logged(l, d, view, blocks, k)[l.Slot(i)] == view[blocks[i]]
    ensures forall b :: b in d && !(l.start < b <= l.start + k) ==> Logged(l, d, view, blocks, k)[b] == d[b]
  {
    LoggedKeys(l, d, view, blocks, k);
    forall i | 0 <= i < k ensures Logged(l, d, view, blocks, k)[l.Slot(i)] == view[blocks[i]] {
      LoggedSlot(l, d, view, blocks, k, i);
    }
    forall b | b in d && !(l.start < b <= l.start + k) ensures Logged(l, d, view, blocks, k)[b] == d[b] {
      LoggedOther(l, d, view, blocks, k, b);
    }
  }

  lemma {:induction false} InstalledKeys(l: Layout, d: Disk, blocks: seq<nat>, k: nat)
    requires k <= |blocks| && Loggable(l, d, blocks)
    ensures Installed(l, d, blocks, k).Keys == d.Keys
  {
    if k > 0 { InstalledKeys(l, d, blocks, k - 1); }
  }

  lemma {:induction false} InstalledOther(l: Layout, d: Disk, blocks: seq<nat>, k: nat, b: nat)
    requires k <= |blocks| && Loggable(l, d, blocks) && b in d && !Among(b, blocks, k)
    ensures b in Installed(l, d, blocks, k) && Installed(l, d, blocks, k)[b] == d[b]
  {
    if k > 0 {
      assert !Among(b, blocks, k - 1);
      InstalledOther(l, d, blocks, k - 1, b);
    }
  }

  lemma {:induction false} InstalledSlot(l: Layout, d: Disk, blocks: seq<nat>, k: nat, i: nat)
    requires i < k <= |blocks| && Loggable(l, d, blocks)
    ensures blocks[i] in Installed(l, d, blocks, k) && Installed(l, d, blocks, k)[blocks[i]] == d[l.Slot(i)]
  {
    if i < k - 1 {
      InstalledSlot(l, d, blocks, k - 1, i);
      assert blocks[i] != blocks[k - 1];
    }
  }

  lemma InstalledAt(l: Layout, d: Disk, blocks: seq<nat>, k: nat)
    requires k <= |blocks| && Loggable(l, d, blocks)
    ensures Installed(l, d, blocks, k).Keys == d.Keys
    ensures forall i :: 0 <= i < k ==> Installed(l, d, blocks, k)[blocks[i]] == d[l.Slot(i)]
    ensures forall b :: b in d && !Among(b, blocks, k) ==> Installed(l, d, blocks, k)[b] == d[b]
  {
    InstalledKeys(l, d, blocks, k);
    forall i | 0 <= i < k ensures Installed(l, d, blocks, k)[blocks[i]] == d[l.Slot(i)] {
      InstalledSlot(l, d, blocks, k, i);
    }
    forall b | b in d && !Among(b, blocks, k) ensures Installed(l, d, blocks, k)[b] == d[b] {
      InstalledOther(l, d, blocks, k, b);
    }
  }

  // Crash safety.

  lemma SameInstalled(l: Layout, d: Disk, e: Disk, blocks: seq<nat>, b: nat)
    requires Loggable(l, d, blocks) && Loggable(l, e, blocks) && b in d && b in e
    requires forall i :: 0 <= i < |blocks| ==> d[l.Slot(i)] == e[l.Slot(i)]
    requires Among(b, blocks, |blocks|) || d[b] == e[b]
    ensures b in Installed(l, d, blocks, |blocks|) && b in Installed(l, e, blocks, |blocks|)
    ensures Installed(l, d, blocks, |blocks|)[b] == Installed(l, e, blocks, |blocks|)[b]
  {
    if Among(b, blocks, |blocks|) {
      var i :| 0 <= i < |blocks| && blocks[i] == b;
      InstalledSlot(l, d, blocks, |blocks|, i);
      InstalledSlot(l, e, blocks, |blocks|, i);
    } else {
      InstalledOther(l, d, blocks, |blocks|, b);
      InstalledOther(l, e, blocks, |blocks|, b);
    }
  }

  /** Recovery reads only the header, the used slots and the home blocks not named in the header. */
  lemma RecoveredDependsOn(l: Layout, d: Disk, e: Disk)
    requires Recoverable(l, d) && d.Keys == e.Keys
    requires d[l.start] == e[l.start]
    requires forall i :: 0 <= i < |Header(d[l.start])| ==> d[l.Slot(i)] == e[l.Slot(i)]
    requires forall b :: b in d && !l.InLog(b) && !Among(b, Header(d[l.start]), |Header(d[l.start])|) ==> d[b] == e[b]
    ensures Recoverable(l, e) && Recovered(l, e) == Recovered(l, d)
  {
    var blocks := Header(d[l.start]);
    InstalledKeys(l, d, blocks, |blocks|);
    InstalledKeys(l, e, blocks, |blocks|);
    forall b | b in d && !l.InLog(b)
      ensures Installed(l, d, blocks, |blocks|)[b] == Installed(l, e, blocks, |blocks|)[b]
    {
      SameInstalled(l, d, e, blocks, b);
    }
  }

  /** An empty header leaves the home blocks as they are. */
  lemma RecoveredEmpty(l: Layout, d: Disk)
    requires Recoverable(l, d) && Word(d[l.start], 0) == 0
    ensures Recovered(l, d) == Home(l, d)
  {
  }

  /** Between any two writes of a recovery the disk still recovers to the same home blocks, and
      a recovery that completes has put them there and emptied the log. */
  lemma RecoveryKeepsMeaning(l: Layout, d: Disk, k: nat)
    requires Recoverable(l, d) && k <= |Header(d[l.start])| + 1
    ensures Recoverable(l, RecoveryDisk(l, d, k))
    ensures Recovered(l, RecoveryDisk(l, d, k)) == Recovered(l, d)
    ensures RecoveryDisk(l, d, k).Keys == d.Keys
    ensures k == |Header(d[l.start])| + 1 ==>
              Word(RecoveryDisk(l, d, k)[l.start], 0) == 0 && Home(l, RecoveryDisk(l, d, k)) == Recovered(l, d)
  {
    var blocks := Header(d[l.start]);
    var n := |blocks|;
    var e := RecoveryDisk(l, d, k);
    assert l.InLog(l.start);
    if k <= n {
      InstalledAt(l, d, blocks, k);
      assert !Among(l.start, blocks, k);
      forall i | 0 <= i < n ensures d[l.Slot(i)] == e[l.Slot(i)] {
        assert l.InLog(l.Slot(i)) && !Among(l.Slot(i), blocks, k);
      }
      forall b | b in d && !l.InLog(b) && !Among(b, blocks, n) ensures d[b] == e[b] {
        assert !Among(b, blocks, k);
      }
      RecoveredDependsOn(l, d, e);
    } else {
      var f := Installed(l, d, blocks, n);
      InstalledAt(l, d, blocks, n);
      HeaderRoundTrip(f[l.start], []);
      RecoveredEmpty(l, e);
      assert Home(l, e) == Home(l, f);
    }
  }

  /** The disk after a chain of recoveries, each cut short after some of its writes. */
  ghost function Interrupted(l: Layout, d: Disk, cuts: seq<nat>): (r: Disk)
    requires Recoverable(l, d)
    ensures Recoverable(l, r) && Recovered(l, r) == Recovered(l, d)
    decreases |cuts|
  {
    if cuts == [] then d
    else
      var n := |Header(d[l.start])|;
      var k := if cuts[0] <= n then cuts[0] else n + 1;
      RecoveryKeepsMeaning(l, d, k);
      Interrupted(l, RecoveryDisk(l, d, k), cuts[1..])
  }

  /** After any of the writes of the log slots, the disk still recovers to the old home blocks. */
  lemma BeforeHeader(l: Layout, d: Disk, view: Disk, blocks: seq<nat>, k: nat)
    requires Loggable(l, d, blocks) && d.Keys == view.Keys && Word(d[l.start], 0) == 0 && k <= |blocks|
    ensures Recoverable(l, CommitDisk(l, d, view, blocks, k))
    ensures Recovered(l, CommitDisk(l, d, view, blocks, k)) == Home(l, d)
  {
    LoggedAt(l, d, view, blocks, k);
    assert l.InLog(l.start);
    RecoveredEmpty(l, CommitDisk(l, d, view, blocks, k));
    assert Home(l, CommitDisk(l, d, view, blocks, k)) == Home(l, d);
  }

  lemma InstalledLogged(l: Layout, d: Disk, view: Disk, blocks: seq<nat>, e: Disk, b: nat)
    requires Loggable(l, d, blocks) && d.Keys == view.Keys == e.Keys && b in d && !l.InLog(b)
    requires forall i :: 0 <= i < |blocks| ==> e[l.Slot(i)] == view[blocks[i]]
    requires e[b] == d[b]
    ensures b in Installed(l, e, blocks, |blocks|)
    ensures Installed(l, e, blocks, |blocks|)[b] == if b in blocks then view[b] else d[b]
  {
    if b in blocks {
      var i :| 0 <= i < |blocks| && blocks[i] == b;
      InstalledSlot(l, e, blocks, |blocks|, i);
    } else {
      InstalledOther(l, e, blocks, |blocks|, b);
    }
  }

  lemma HomeOfUpdate(l: Layout, d: Disk, view: Disk, blocks: seq<nat>, f: Disk)
    requires d.Keys == view.Keys == f.Keys
    requires forall b :: b in d && !l.InLog(b) ==> f[b] == if b in blocks then view[b] else d[b]
    ensures Home(l, f) == Update(Home(l, d), view, blocks)
  {
  }

  lemma HeaderWritten(l: Layout, d: Disk, view: Disk, blocks: seq<nat>)
    requires Loggable(l, d, blocks) && d.Keys == view.Keys
    ensures var e := Committed(l, d, view, blocks);
            && e[l.start] == SetHeader(d[l.start], blocks)
            && Header(e[l.start]) == blocks && Word(e[l.start], 0) == |blocks|
            && (forall i :: 0 <= i < |blocks| ==> e[l.Slot(i)] == view[blocks[i]])
            && (forall b :: b in d && !(l.start <= b <= l.start + |blocks|) ==> e[b] == d[b])
  {
    LoggedAt(l, d, view, blocks, |blocks|);
    HeaderRoundTrip(d[l.start], blocks);
  }

  /** The header write commits: from then on recovery yields the logged contents. */
  lemma AtHeader(l: Layout, d: Disk, view: Disk, blocks: seq<nat>)
    requires Loggable(l, d, blocks) && d.Keys == view.Keys
    ensures var e := Committed(l, d, view, blocks);
            Recoverable(l, e) && Header(e[l.start]) == blocks
            && Recovered(l, e) == Update(Home(l, d), view, blocks)
  {
    var n := |blocks|;
    var e := Committed(l, d, view, blocks);
    HeaderWritten(l, d, view, blocks);
    InstalledKeys(l, e, blocks, n);
    forall b | b in d && !l.InLog(b)
      ensures Installed(l, e, blocks, n)[b] == if b in blocks then view[b] else d[b]
    {
      InstalledLogged(l, d, view, blocks, e, b);
    }
    HomeOfUpdate(l, d, view, blocks, Installed(l, e, blocks, n));
  }

  /** After the header write, a commit's remaining writes are those of a recovery. */
  lemma AfterHeader(l: Layout, d: Disk, view: Disk, blocks: seq<nat>, k: nat)
    requires Loggable(l, d, blocks) && d.Keys == view.Keys && |blocks| < k <= 2 * |blocks| + 2
    ensures var e := Committed(l, d, view, blocks);
            Recoverable(l, e) && Header(e[l.start]) == blocks
            && CommitDisk(l, d, view, blocks, k) == RecoveryDisk(l, e, k - |blocks| - 1)
  {
    AtHeader(l, d, view, blocks);
  }

  /** Crash atomicity of commit: crash after any number k of its writes, interrupt recovery any
      number of times, and what recovery yields is all-new exactly when the first header
      write was among the k, and all-old otherwise. */
  lemma CommitIsAtomic(l: Layout, d: Disk, view: Disk, blocks: seq<nat>, k: nat, cuts: seq<nat>)
    requires Loggable(l, d, blocks) && d.Keys == view.Keys && Word(d[l.start], 0) == 0
    requires k <= 2 * |blocks| + 2
    ensures Recoverable(l, CommitDisk(l, d, view, blocks, k))
    ensures var e := Interrupted(l, CommitDisk(l, d, view, blocks, k), cuts);
            Recovered(l, e) == (if k <= |blocks| then Home(l, d) else Update(Home(l, d), view, blocks))
  {
    if k <= |blocks| {
      BeforeHeader(l, d, view, blocks, k);
    } else {
      AtHeader(l, d, view, blocks);
      AfterHeader(l, d, view, blocks, k);
      RecoveryKeepsMeaning(l, Committed(l, d, view, blocks), k - |blocks| - 1);
    }
  }

  /** A commit that runs to its end leaves the new contents at home and an empty log. */
  lemma CommitCompletes(l: Layout, d: Disk, view: Disk, blocks: seq<nat>)
    requires Loggable(l, d, blocks) && d.Keys == view.Keys
    ensures var e := CommitDisk(l, d, view, blocks, 2 * |blocks| + 2);
            e.Keys == d.Keys && Word(e[l.start], 0) == 0 && Home(l, e) == Update(Home(l, d), view, blocks)
  {
    AtHeader(l, d, view, blocks);
    AfterHeader(l, d, view, blocks, 2 * |blocks| + 2);
    RecoveryKeepsMeaning(l, Committed(l, d, view, blocks), |blocks| + 1);
  }

  // The writes of a commit and of a recovery, as the code performs them.

  ghost function CommitTrace(l: Layout, d: Disk, view: Disk, blocks: seq<nat>, k: nat): (r: seq<Disk>)
    requires Loggable(l, d, blocks) && d.Keys == view.Keys && k <= 2 * |blocks| + 2
    ensures |r| == k && forall i :: 0 <= i < k ==> r[i] == CommitDisk(l, d, view, blocks, i + 1)
  {
    if k == 0 then [] else CommitTrace(l, d, view, blocks, k - 1) + [CommitDisk(l, d, view, blocks, k)]
  }

  ghost function RecoveryTrace(l: Layout, d: Disk, k: nat): (r: seq<Disk>)
    requires Recoverable(l, d) && k <= |Header(d[l.start])| + 1
    ensures |r| == k && forall i :: 0 <= i < k ==> r[i] == RecoveryDisk(l, d, i + 1)
  {
    if k == 0 then [] else RecoveryTrace(l, d, k - 1) + [RecoveryDisk(l, d, k)]
  }

  lemma CommitDiskIs(l: Layout, d: Disk, view: Disk, blocks: seq<nat>, k: nat)
    requires Loggable(l, d, blocks) && d.Keys == view.Keys && k <= 2 * |blocks| + 2
    ensures var n, e := |blocks|, Committed(l, d, view, blocks);
            && Loggable(l, e, blocks)
            && (k <= n ==> CommitDisk(l, d, view, blocks, k) == Logged(l, d, view, blocks, k))
            && (k == n + 1 ==> CommitDisk(l, d, view, blocks, k) == e)
            && (n < k <= 2 * n + 1 ==> CommitDisk(l, d, view, blocks, k) == Installed(l, e, blocks, k - n - 1))
            && Loggable(l, Installed(l, e, blocks, n), [])
            && (k == 2 * n + 2 ==> CommitDisk(l, d, view, blocks, k) == WithHeader(l, Installed(l, e, blocks, n), []))
  {
    hide Word, SetHeader, Committed, Loggable;
    var n, e := |blocks|, Committed(l, d, view, blocks);
    LoggableKeys(l, d, e, blocks);
    InstalledKeys(l, e, blocks, n);
    LoggableKeys(l, e, Installed(l, e, blocks, n), blocks);
  }

  /** install_trans and write_head are the writes of a recovery. */
  lemma RecoveryTraceParts(l: Layout, d: Disk)
    requires Recoverable(l, d)
    ensures var blocks := Header(d[l.start]);
            var n := |blocks|;
            var f := Installed(l, d, blocks, n);
            && Loggable(l, f, []) && f.Keys == d.Keys
            && RecoveryDisk(l, d, n + 1) == WithHeader(l, f, [])
            && RecoveryTrace(l, d, n + 1) == InstallTrace(l, d, blocks, n) + [RecoveryDisk(l, d, n + 1)]
  {
    hide Word, SetHeader, Header, Loggable, RecoveryTrace, InstallTrace;
    var blocks := Header(d[l.start]);
    var n := |blocks|;
    InstalledKeys(l, d, blocks, n);
    LoggableKeys(l, d, Installed(l, d, blocks, n), blocks);
    hide Installed;
    var t, u := RecoveryTrace(l, d, n + 1), InstallTrace(l, d, blocks, n) + [RecoveryDisk(l, d, n + 1)];
    forall i | 0 <= i < n + 1 ensures t[i] == u[i] {}
  }

  /** write_log, write_head, install_trans and write_head again are the writes of a commit. */
  lemma CommitTraceParts(l: Layout, d: Disk, view: Disk, blocks: seq<nat>)
    requires Loggable(l, d, blocks) && d.Keys == view.Keys
    ensures var n := |blocks|;
            var e := Committed(l, d, view, blocks);
            CommitTrace(l, d, view, blocks, 2 * n + 2)
            == LogTrace(l, d, view, blocks, n) + [e] + InstallTrace(l, e, blocks, n)
               + [CommitDisk(l, d, view, blocks, 2 * n + 2)]
    ensures var f := Installed(l, Committed(l, d, view, blocks), blocks, |blocks|);
            Loggable(l, f, []) && CommitDisk(l, d, view, blocks, 2 * |blocks| + 2) == WithHeader(l, f, [])
  {
    hide CommitTrace, LogTrace, InstallTrace, CommitDisk, Committed, Loggable, Word, SetHeader;
    var n := |blocks|;
    var e := Committed(l, d, view, blocks);
    LoggableKeys(l, d, e, blocks);
    InstalledKeys(l, e, blocks, n);
    LoggableKeys(l, e, Installed(l, e, blocks, n), blocks);
    hide Installed, Logged;
    var t := CommitTrace(l, d, view, blocks, 2 * n + 2);
    var u := LogTrace(l, d, view, blocks, n) + [e] + InstallTrace(l, e, blocks,
                                                                  n) + [CommitDisk(l, d, view, blocks, 2 * n + 2)];
    forall i | 0 <= i < 2 * n + 2 ensures t[i] == u[i] { CommitDiskIs(l, d, view, blocks, i + 1); }
    CommitDiskIs(l, d, view, blocks, 2 * n + 2);
  }

  /** The cache and the disk agree on every block once the logged blocks are home. */
  lemma CommittedView(l: Layout, d: Disk, view: Disk, blocks: seq<nat>)
    requires Loggable(l, d, blocks) && d.Keys == view.Keys
    requires forall b :: b in d && b !in blocks ==> view[b] == d[b]
    ensures Installed(l, Committed(l, view, view, blocks), blocks, |blocks|)
            == Installed(l, Committed(l, d, view, blocks), blocks, |blocks|)
  {
    var e := Committed(l, d, view, blocks);
    var v := Committed(l, view, view, blocks);
    forall b | b in d && b !in blocks ensures v[b] == e[b] {
      CommittedElsewhere(l, d, view, blocks, b);
      CommittedElsewhere(l, view, view, blocks, b);
      if !(l.start < b <= l.start + |blocks|) {
        assert l.start !in blocks by { assert l.InLog(l.start); }
      }
    }
    forall i | 0 <= i < |blocks| ensures v[l.Slot(i)] == e[l.Slot(i)] {
      assert l.InLog(l.Slot(i));
    }
    InstalledSame(l, v, e, blocks);
  }

  lemma CommittedElsewhere(l: Layout, d: Disk, view: Disk, blocks: seq<nat>, b: nat)
    requires Loggable(l, d, blocks) && d.Keys == view.Keys && b in d
    ensures Committed(l, d, view, blocks)[b]
            == if b == l.start then SetHeader(d[b], blocks)
               else if l.start < b <= l.start + |blocks| then view[blocks[b - l.start - 1]] else d[b]
  {
    hide SetHeader, Word;
    LoggedKeys(l, d, view, blocks, |blocks|);
    if l.start < b <= l.start + |blocks| {
      LoggedSlot(l, d, view, blocks, |blocks|, b - l.start - 1);
    } else {
      LoggedOther(l, d, view, blocks, |blocks|, b);
    }
  }

  lemma InstalledSame(l: Layout, d: Disk, e: Disk, blocks: seq<nat>)
    requires Loggable(l, d, blocks) && d.Keys == e.Keys
    requires forall i :: 0 <= i < |blocks| ==> d[l.Slot(i)] == e[l.Slot(i)]
    requires forall b :: b in d && b !in blocks ==> d[b] == e[b]
    ensures Installed(l, d, blocks, |blocks|) == Installed(l, e, blocks, |blocks|)
  {
    InstalledKeys(l, d, blocks, |blocks|);
    InstalledKeys(l, e, blocks, |blocks|);
    forall b | b in d
      ensures Installed(l, d, blocks, |blocks|)[b] == Installed(l, e, blocks, |blocks|)[b]
    {
      SameInstalled(l, d, e, blocks, b);
    }
  }
}
