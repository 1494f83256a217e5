/** kernel/log.c on one device. The buffer cache is the plain block-to-bytes map that
    CacheModel.CacheIsPlainMap shows it to be: `view` is what bread returns, and bwrite copies one block of it
    to `disk`. `writes` records the disk after every block write: the states a crash can leave. */
module Log {
  import opened Blocks
  import opened LogSpec

  class Log {
    const l: Layout
    var n: nat             // lh.n
    var block: seq<nat>    // lh.block
    var outstanding: int
    var committing: bool
    var view: Disk
    var disk: Disk
    var pins: set<nat>     // blocks whose buffer log_write has pinned
    ghost var writes: seq<Disk>

    ghost function Blocks(): (r: seq<nat>)
      reads this
      requires n <= |block|
    {
      block[..n]
    }

    ghost predicate Shape()
      reads this
    {
      && |block| == LOGSIZE && n <= LOGSIZE && disk.Keys == view.Keys
      && Loggable(l, disk, block[..n])
    }

    /** Between commits: the on-disk log is empty, the logged blocks are the pinned ones, and
        every other block is the same in the cache and on the disk. */
    ghost predicate Valid()
      reads this
    {
      && Shape()
      && Word(disk[l.start], 0) == 0
      && pins == (set b | b in block[..n])
      && (forall b :: b in disk && b !in pins ==> view[b] == disk[b])
    }

    /** Reboot: memory is lost, and recover_from_log has yet to run. */
    constructor (layout: Layout, contents: Disk)
      requires Recoverable(layout, contents)
      ensures l == layout && disk == view == contents && writes == []
      ensures |block| == LOGSIZE && n == 0 && pins == {} && outstanding == 0 && !committing
    {
      l, n, block := layout, 0, seq(LOGSIZE, _ => 0);
      outstanding, committing := 0, false;
      view, disk, pins, writes := contents, contents, {}, [];
    }

    method Bwrite(b: nat)
      requires b in view
      modifies this`disk, this`writes
      ensures disk == old(disk)[b := view[b]] && writes == old(writes) + [disk]
    {
      disk := disk[b := view[b]];
      writes := writes + [disk];
    }

    /** install_trans: copy the logged blocks home, unpinning them unless recovering. */
    method InstallTrans(recovering: bool)
      requires Shape()
      requires forall i :: 0 <= i < n ==> view[l.Slot(i)] == disk[l.Slot(i)]
      modifies this`disk, this`view, this`pins, this`writes
      ensures disk == Installed(l, old(disk), block[..n], n)
      ensures view == Installed(l, old(view), block[..n], n)
      ensures writes == old(writes) + InstallTrace(l, old(disk), block[..n], n)
      ensures pins == if recovering then old(pins) else old(pins) - set b | b in block[..n]
    {
      hide Loggable, Installed, InstallTrace;
      ghost var d, v, w, blocks := disk, view, writes, block[..n];
      LoggableKeys(l, d, v, blocks);
      InstallNone(l, d, blocks);
      InstallNone(l, v, blocks);
      var tail := 0;
      while tail < n
        invariant 0 <= tail <= n
        invariant disk == Installed(l, d, blocks, tail) && view == Installed(l, v, blocks, tail)
        invariant writes == w + InstallTrace(l, d, blocks, tail)
        invariant forall b :: b in pins <==> b in old(pins) && (recovering || b !in blocks[..tail])
      {
        var lbuf, dbuf := l.Slot(tail), block[tail];
        InstallNext(l, d, blocks, tail);
        InstallNext(l, v, blocks, tail);
        view := view[dbuf := view[lbuf]];
        Bwrite(dbuf);
        if !recovering { pins := pins - {dbuf}; }
        assert blocks[..tail + 1] == blocks[..tail] + [dbuf];
        tail := tail + 1;
      }
      assert blocks[..n] == blocks;
    }

    /** read_head: the in-memory header becomes the on-disk one. */
    method ReadHead()
      requires l.start in view && Word(view[l.start], 0) <= LOGSIZE && |block| == LOGSIZE
      modifies this`n, this`block
      ensures |block| == LOGSIZE && n <= LOGSIZE && block[..n] == Header(view[l.start])
    {
      var lh := view[l.start];
      ghost var header := Header(lh);
      n := Word(lh, 0);
      var i := 0;
      while i < n
        invariant 0 <= i <= n == |header| && |block| == LOGSIZE
        invariant forall j :: 0 <= j < i ==> block[j] == header[j]
      {
        assert header[i] == Word(lh, i + 1);
        block := block[i := Word(lh, i + 1)];
        i := i + 1;
      }
    }

    /** write_head: store the in-memory header in the header block and write it. */
    method WriteHead()
      requires Shape()
      modifies this`disk, this`view, this`writes
      ensures view == WithHeader(l, old(view), block[..n])
      ensures disk == old(disk)[l.start := view[l.start]] && writes == old(writes) + [disk]
    {
      var hb := view[l.start];
      ghost var blocks, h := block[..n], hb;
      hb := SetWord(hb, 0, n);
      var i := 0;
      while i < n
        invariant 0 <= i <= n && hb == SetEntries(SetWord(h, 0, n), blocks, i)
      {
        hb := SetWord(hb, i + 1, block[i]);
        i := i + 1;
      }
      view := view[l.start := hb];
      Bwrite(l.start);
    }

    /** write_log: copy the cached contents of the logged blocks to the log slots. */
    method WriteLog()
      requires Shape()
      modifies this`disk, this`view, this`writes
      ensures disk == Logged(l, old(disk), old(view), block[..n], n)
      ensures view == Logged(l, old(view), old(view), block[..n], n)
      ensures writes == old(writes) + LogTrace(l, old(disk), old(view), block[..n], n)
    {
      ghost var d, v, w, blocks := disk, view, writes, block[..n];
      var tail := 0;
      while tail < n
        invariant 0 <= tail <= n
        invariant disk == Logged(l, d, v, blocks, tail) && view == Logged(l, v, v, blocks, tail)
        invariant writes == w + LogTrace(l, d, v, blocks, tail)
      {
        var to, from := l.Slot(tail), block[tail];
        assert blocks[tail] == from && !l.InLog(from);
        LoggedOther(l, v, v, blocks, tail, from);
        view := view[to := view[from]];
        Bwrite(to);
        tail := tail + 1;
      }
    }
  
    /** recover_from_log, run on a freshly booted machine: every disk on the way still recovers to
        the same home blocks, and at the end they are in place and the log is empty. */
    method RecoverFromLog()
      requires Recoverable(l, disk) && view == disk && |block| == LOGSIZE && pins == {}
      modifies this`disk, this`view, this`pins, this`writes, this`n, this`block
      ensures Valid() && n == 0 && Home(l, disk) == Recovered(l, old(disk))
      ensures writes == old(writes) + RecoveryTrace(l, old(disk), |Header(old(disk)[l.start])| + 1)
      ensures forall k :: |old(writes)| <= k < |writes| ==>
                Recoverable(l, writes[k]) && Recovered(l, writes[k]) == Recovered(l, old(disk))
    {
      ghost var d := disk;
      RecoverWrites();
      hide Word, Header, Recovered, Recoverable, RecoveryDisk;
      ghost var m := |Header(d[l.start])|;
      forall k | 0 <= k <= m + 1
        ensures Recoverable(l, RecoveryDisk(l, d, k)) && Recovered(l, RecoveryDisk(l, d, k)) == Recovered(l, d)
      {
        RecoveryKeepsMeaning(l, d, k);
      }
      RecoveryKeepsMeaning(l, d, m + 1);
    }

    /** The writes of a recovery. */
    method RecoverWrites()
      requires Recoverable(l, disk) && view == disk && |block| == LOGSIZE
      modifies this`disk, this`view, this`pins, this`writes, this`n, this`block
      ensures disk == view == RecoveryDisk(l, old(disk), |Header(old(disk)[l.start])| + 1)
      ensures Shape() && n == 0 && pins == old(pins)
      ensures writes == old(writes) + RecoveryTrace(l, old(disk), |Header(old(disk)[l.start])| + 1)
    {
      hide Word, SetHeader, Header, Loggable, RecoveryDisk, RecoveryTrace, InstallTrace, Installed;
      ghost var d := disk;
      RecoveryTraceParts(l, d);
      ReadHead();
      ghost var blocks := block[..n];
      InstallTrans(true);
      ghost var f := disk;
      n := 0;
      assert block[..n] == [];
      WriteHead();
      HeaderKeys(l, f);
    }

    /** One pass of the loop of begin_op under log.lock: enter, or sleep and try again later. */
    method TryBeginOp() returns (entered: bool)
      modifies this`outstanding
      ensures entered <==> !committing && n + (old(outstanding) + 1) * MAXOPBLOCKS <= LOGSIZE
      ensures outstanding == if entered then old(outstanding) + 1 else old(outstanding)
    {
      if committing {
        entered := false;
      } else if n + (outstanding + 1) * MAXOPBLOCKS > LOGSIZE {
        entered := false;
      } else {
        outstanding := outstanding + 1;
        entered := true;
      }
    }

    /** Enter the block in the header at index i, pinning its buffer if it is new there. */
    method Record(i: nat, b: nat)
      requires i <= n < |block| && (i < n ==> block[i] == b)
      modifies this`n, this`block, this`pins
      ensures |block| == |old(block)| && n == (if i == old(n) then old(n) + 1 else old(n)) <= |block|
      ensures block[..n] == if i == old(n) then old(block[..n]) + [b] else old(block[..n])
      ensures pins == if i == old(n) then old(pins) + {b} else old(pins)
    {
      block := block[i := b];
      if i == n {
        pins := pins + {b};
        n := n + 1;
      }
    }

    /** The holder of a buffer stores new contents and calls log_write. Refused, with nothing
        recorded, exactly where log_write panics. */
    method LogWrite(b: nat, data: Block) returns (ok: bool)
      requires Valid() && b in disk && !l.InLog(b) && b < WORD_LIMIT
      modifies this`n, this`block, this`view, this`pins
      ensures Valid() && view == if ok then old(view)[b := data] else old(view)
      ensures ok <==> old(n) < LOGSIZE && old(n) < l.size - 1 && outstanding >= 1
      ensures block[..n] == if ok && b !in old(block[..n]) then old(block[..n]) + [b] else old(block[..n])
    {
      hide Word, Loggable;
      if n >= LOGSIZE || n >= l.size - 1 { return false; }
      if outstanding < 1 { return false; }
      var i := Absorb(b);
      ghost var blocks := block[..n];
      if i == n {
        LoggableAppend(l, disk, blocks, b);
        PinsAppend(blocks, b);
      }
      Record(i, b);
      view := view[b := data];
      ok := true;
    }

    /** The scan of log_write: the block's place in the header, or n when it is not there. */
    method Absorb(b: nat) returns (i: nat)
      requires n <= |block|
      ensures i <= n && (i < n <==> b in block[..n]) && (i < n ==> block[i] == b)
    {
      i := 0;
      while i < n
        invariant i <= n && b !in block[..i]
      {
        if block[i] == b { break; }
        i := i + 1;
      }
    }

    /** end_op: the last operation out commits. `ok` is false where end_op panics. */
    method EndOp() returns (ok: bool)
      requires Valid()
      modifies this
      ensures ok <==> !old(committing)
      ensures ok ==> Valid() && outstanding == old(outstanding) - 1 && !committing
      ensures ok && outstanding == 0 ==> n == 0 && Home(l, disk) == Home(l, view) == old(Home(l, view))
      ensures ok && outstanding != 0 ==> view == old(view) && disk == old(disk) && n == old(n) && block == old(block)
    {
      outstanding := outstanding - 1;
      if committing { return false; }
      var doCommit := false;
      if outstanding == 0 {
        doCommit := true;
        committing := true;
      }
      if doCommit {
        Commit();
        committing := false;
      }
      ok := true;
    }

    /** commit: the disk goes through exactly the states of CommitDisk, so a crash at any of them
        recovers to the old home blocks until the header write, and to the cached contents of
        all home blocks from then on. */
    method Commit()
      requires Valid()
      modifies this`disk, this`view, this`pins, this`writes, this`n
      ensures Valid() && n == 0 && Home(l, view) == old(Home(l, view)) == Home(l, disk)
      ensures old(n) == 0 ==> writes == old(writes)
      ensures old(n) > 0 ==>
                writes == old(writes) + CommitTrace(l, old(disk), old(view), old(block[..n]), 2 * old(n) + 2)
      ensures forall k :: |old(writes)| <= k < |writes| ==>
                Recoverable(l, writes[k]) && Recovered(l, writes[k])
                  == if k < |old(writes)| + old(n) then old(Home(l, disk)) else old(Home(l, view))
    {
      hide Word, Header, CommitDisk, Recovered, Recoverable, Committed, Loggable, CommitTrace, Logged, Installed,
        Update, Home;
      ghost var d, v, w, blocks := disk, view, writes, block[..n];
      if n > 0 {
        CommitWrites();
        assert block[..n] == [];
        LoggableKeys(l, d, disk, blocks);
        CommitStates(l, d, v, blocks);
        TraceStates(l, d, v, blocks, w, writes);
      } else {
        assert view == disk;
      }
    }

    /** The writes of a non-empty commit. */
    method CommitWrites()
      requires Valid()
      modifies this`disk, this`view, this`pins, this`writes, this`n
      ensures disk == view == CommitDisk(l, old(disk), old(view), old(block[..n]), 2 * old(n) + 2)
      ensures disk.Keys == old(disk.Keys) && n == 0 && pins == {}
      ensures writes == old(writes) + CommitTrace(l, old(disk), old(view), old(block[..n]), 2 * old(n) + 2)
    {
      hide Word, SetHeader, Header, CommitDisk, Committed, Loggable, LogTrace, InstallTrace, CommitTrace, Installed,
        Logged;
      ghost var d, v, blocks := disk, view, block[..n];
      LoggableKeys(l, d, v, blocks);
      CommitToLog();
      ghost var e := disk;
      LoggableKeys(l, d, e, blocks);
      LoggableKeys(l, d, view, blocks);
      CommittedView(l, d, v, blocks);
      InstallTrans(false);
      InstalledKeys(l, e, blocks, |blocks|);
      LoggableKeys(l, d, disk, blocks);
      CommitTraceParts(l, d, v, blocks);
      n := 0;
      ghost var f := disk;
      WriteHead();
      assert disk == view == WithHeader(l, f, []);
      Append4(old(writes), LogTrace(l, d, v, blocks, |blocks|), [e], InstallTrace(l, e, blocks, |blocks|), [disk]);
    }

    /** The first half of commit: the log slots, then the header. */
    method CommitToLog()
      requires Valid()
      modifies this`disk, this`view, this`writes
      ensures disk == Committed(l, old(disk), old(view), block[..n])
      ensures view == Committed(l, old(view), old(view), block[..n])
      ensures writes == old(writes) + LogTrace(l, old(disk), old(view), block[..n], n) + [disk]
      ensures forall i :: 0 <= i < n ==> view[l.Slot(i)] == disk[l.Slot(i)]
    {
      hide Word, SetHeader, Header, Loggable, Logged, LogTrace;
      ghost var d, v, blocks := disk, view, block[..n];
      LoggableKeys(l, d, v, blocks);
      StartNotLogged(l, d, blocks);
      ToLog(l, d, v, blocks);
      ToLog(l, v, v, blocks);
      WriteLog();
      WriteHead();
    }
  }

  /** The log slots, and then the header, make the committed disk. */
  lemma ToLog(l: Layout, d: Disk, v: Disk, blocks: seq<nat>)
    requires Loggable(l, d, blocks) && d.Keys == v.Keys
    ensures var e := Logged(l, d, v, blocks, |blocks|);
            && e.Keys == d.Keys && Loggable(l, e, blocks) && l.start in e && e[l.start] == d[l.start]
            && Committed(l, d, v, blocks) == e[l.start := SetHeader(d[l.start], blocks)]
            && (forall i :: 0 <= i < |blocks| ==> Committed(l, d, v, blocks)[l.Slot(i)] == v[blocks[i]])
  {
    hide Word, SetHeader, Header;
    assert l.InLog(l.start);
    LoggedKeys(l, d, v, blocks, |blocks|);
    LoggedOther(l, d, v, blocks, |blocks|, l.start);
    HeaderWritten(l, d, v, blocks);
  }

  lemma StartNotLogged(l: Layout, d: Disk, blocks: seq<nat>)
    requires Loggable(l, d, blocks)
    ensures l.start !in blocks
  {
    assert l.InLog(l.start);
  }

  lemma InstallNone(l: Layout, d: Disk, blocks: seq<nat>)
    requires Loggable(l, d, blocks)
    ensures Installed(l, d, blocks, 0) == d && InstallTrace(l, d, blocks, 0) == []
  {
    hide Loggable;
  }

  /** One round of install_trans; the log slot it reads is as it was. */
  lemma InstallNext(l: Layout, d: Disk, blocks: seq<nat>, k: nat)
    requires Loggable(l, d, blocks) && k < |blocks|
    ensures var e := Installed(l, d, blocks, k);
            && l.Slot(k) in d && l.Slot(k) in e && e[l.Slot(k)] == d[l.Slot(k)]
            && Installed(l, d, blocks, k + 1) == e[blocks[k] := d[l.Slot(k)]]
            && InstallTrace(l, d, blocks, k + 1) == InstallTrace(l, d, blocks, k) + [Installed(l, d, blocks, k + 1)]
  {
    assert l.InLog(l.Slot(k));
    InstalledOther(l, d, blocks, k, l.Slot(k));
  }

  lemma PinsAppend(blocks: seq<nat>, b: nat)
    ensures (set x | x in blocks + [b]) == (set x | x in blocks) + {b}
  {
  }

  lemma HeaderKeys(l: Layout, f: Disk)
    requires Loggable(l, f, [])
    ensures WithHeader(l, f, []).Keys == f.Keys && Loggable(l, WithHeader(l, f, []), [])
  {
    hide Word, SetHeader;
    assert l.InLog(l.start);
  }

  lemma Append4<T>(a: seq<T>, b: seq<T>, c: seq<T>, d: seq<T>, e: seq<T>)
    ensures a + b + c + d + e == a + (b + c + d + e)
  {
    assert a + b + c == a + (b + c);
    assert a + (b + c) + d == a + (b + c + d);
  }

  /** What every state of a commit recovers to when only the logged blocks differ from the disk. */
  lemma CommitStates(l: Layout, d: Disk, v: Disk, blocks: seq<nat>)
    requires Loggable(l, d, blocks) && d.Keys == v.Keys && Word(d[l.start], 0) == 0
    requires forall b :: b in d && b !in blocks ==> v[b] == d[b]
    ensures Update(Home(l, d), v, blocks) == Home(l, v)
    ensures forall k :: 0 <= k <= 2 * |blocks| + 2 ==>
              Recoverable(l, CommitDisk(l, d, v, blocks, k))
              && Recovered(l, CommitDisk(l, d, v, blocks, k)) == if k <= |blocks| then Home(l, d) else Home(l, v)
    ensures Word(CommitDisk(l, d, v, blocks, 2 * |blocks| + 2)[l.start], 0) == 0
    ensures Home(l, CommitDisk(l, d, v, blocks, 2 * |blocks| + 2)) == Home(l, v)
  {
    assert Update(Home(l, d), v, blocks) == Home(l, v);
    forall k | 0 <= k <= 2 * |blocks| + 2
      ensures Recoverable(l, CommitDisk(l, d, v, blocks, k))
              && Recovered(l, CommitDisk(l, d, v, blocks, k)) == if k <= |blocks| then Home(l, d) else Home(l, v)
    {
      CommitIsAtomic(l, d, v, blocks, k, []);
    }
    CommitCompletes(l, d, v, blocks);
  }

  /** The same, for the recorded writes. */
  lemma TraceStates(l: Layout, d: Disk, v: Disk, blocks: seq<nat>, w: seq<Disk>, w': seq<Disk>)
    requires Loggable(l, d, blocks) && d.Keys == v.Keys && Word(d[l.start], 0) == 0
    requires forall b :: b in d && b !in blocks ==> v[b] == d[b]
    requires w' == w + CommitTrace(l, d, v, blocks, 2 * |blocks| + 2)
    ensures forall k :: |w| <= k < |w'| ==>
              Recoverable(l, w'[k]) && Recovered(l, w'[k]) == if k < |w| + |blocks| then Home(l, d) else Home(l, v)
  {
    hide Word, Header, CommitDisk, Recovered, Recoverable, Loggable, CommitTrace, Home;
    CommitStates(l, d, v, blocks);
    forall k | |w| <= k < |w'|
      ensures Recoverable(l, w'[k]) && Recovered(l, w'[k]) == if k < |w| + |blocks| then Home(l, d) else Home(l, v)
    {
      assert w'[k] == CommitDisk(l, d, v, blocks, k - |w| + 1);
    }
  }
}
