/** Wiring a job's processes (pd_job_impl_start_processing, pd_job_impl_run_process and
    pd_job_impl_start_sending, on their success paths): which descriptor ends up where, and
    which are left open in the daemon. */
module Pipeline {
  import opened Descriptors
  import ProcessSetup

  /** The descriptor arrays of struct _PdJobProcess. They are embedded in the structure, so they
      are values here. */
  class ProcessFds {
    var childFd: seq<int>
    var parentFd: seq<int>

    /** pd_job_impl_init_jp */
    constructor ()
      ensures childFd == UNSET && parentFd == UNSET
    {
      childFd, parentFd := UNSET, UNSET;
    }

    /** pd_job_impl_process_setup, in the child. */
    method SetupChild(child: Process)
      requires |childFd| == |parentFd| == PD_FD_MAX
      modifies child`table, this`childFd
      ensures child.table == ProcessSetup.Setup(old(child.table), old(childFd), parentFd)
    {
      var i := 0;
      while i < PD_FD_MAX
        invariant 0 <= i <= PD_FD_MAX && childFd == old(childFd)
        invariant child.table == ProcessSetup.CloseParents(old(child.table), parentFd, i)
      {
        if parentFd[i] != -1 {
          var _ := child.Close(parentFd[i]);
        }
        i := i + 1;
      }
      ghost var t := child.table;
      i := 0;
      while i < PD_FD_MAX
        invariant 0 <= i <= PD_FD_MAX && |childFd| == PD_FD_MAX
        invariant (child.table, childFd) == ProcessSetup.MovedAway(t, old(childFd), i)
      {
        if childFd[i] < PD_FD_MAX && childFd[i] != i {
          var newFd := PD_FD_MAX + i;
          var _ := child.Duplicate(childFd[i], newFd);
          var _ := child.Close(childFd[i]);
          childFd := childFd[i := newFd];
        }
        i := i + 1;
      }
      ghost var u := child.table;
      i := 0;
      while i < PD_FD_MAX
        invariant 0 <= i <= PD_FD_MAX && |childFd| == PD_FD_MAX
        invariant child.table == ProcessSetup.MovedIn(u, childFd, i)
        invariant (u, childFd) == ProcessSetup.MovedAway(t, old(childFd), PD_FD_MAX)
      {
        if childFd[i] != -1 && childFd[i] != i {
          var _ := child.Duplicate(childFd[i], i);
          var _ := child.Close(childFd[i]);
        }
        i := i + 1;
      }
    }
  }

  const UNSET: seq<int> := [-1, -1, -1, -1, -1]

  // The order in which descriptors are opened

  /** The file behind the descriptor opened as number `i`: the document first, then pairs. Pair
      number 4 is the socket pair of the side channel, all others are pipes. */
  function FileAt(i: nat, id: nat): OpenFile {
    if i == 0 then Document
    else if (i - 1) / 2 == 4 then Socket(id + 4, (i - 1) % 2)
    else Pipe(id + (i - 1) / 2, (i - 1) % 2 == 1)
  }

  /** The table after the first `m` of these have been opened, starting from `base`. */
  function TableAt(base: Table, id: nat, m: nat): Table {
    if m == 0 then base else WithLowest(TableAt(base, id, m - 1), FileAt(m - 1, id))
  }

  /** The descriptor opened as number `i`. */
  function Fd(base: Table, id: nat, i: nat): (fd: nat)
    ensures fd !in TableAt(base, id, i)
  {
    LowestFree(TableAt(base, id, i), 0)
  }

  lemma PairFiles(p: nat, id: nat)
    ensures FileAt(1 + 2 * p, id) == if p == 4 then Socket(id + p, 0) else Pipe(id + p, false)
    ensures FileAt(2 + 2 * p, id) == if p == 4 then Socket(id + p, 1) else Pipe(id + p, true)
  {
  }

  /** Nothing is lost: what was open stays open and refers to the same file. */
  lemma {:induction false} BaseKept(base: Table, id: nat, m: nat, fd: int)
    requires fd in base
    ensures fd in TableAt(base, id, m) && TableAt(base, id, m)[fd] == base[fd]
  {
    if m > 0 {
      BaseKept(base, id, m - 1, fd);
    }
  }

  lemma {:induction false} FdKept(base: Table, id: nat, i: nat, m: nat)
    requires i < m
    ensures Fd(base, id, i) in TableAt(base, id, m) && TableAt(base, id, m)[Fd(base, id, i)] == FileAt(i, id)
    decreases m
  {
    if i < m - 1 {
      FdKept(base, id, i, m - 1);
    }
  }

  lemma {:induction false} TableGrows(base: Table, id: nat, i: nat, m: nat, fd: int)
    requires i <= m && fd in TableAt(base, id, i)
    ensures fd in TableAt(base, id, m)
    decreases m
  {
    if i < m {
      TableGrows(base, id, i, m - 1, fd);
    }
  }

  lemma {:induction false} NothingElse(base: Table, id: nat, m: nat, fd: int)
    requires fd in TableAt(base, id, m)
    ensures fd in base || exists i :: 0 <= i < m && fd == Fd(base, id, i)
  {
    if m > 0 && fd != Fd(base, id, m - 1) {
      NothingElse(base, id, m - 1, fd);
    }
  }

  /** All these descriptors are different, and none was open before. */
  lemma FdsDiffer(base: Table, id: nat, i: nat, j: nat)
    requires i != j
    ensures Fd(base, id, i) != Fd(base, id, j)
  {
    if i < j {
      FdKept(base, id, i, j);
    } else {
      FdKept(base, id, j, i);
    }
  }

  lemma FdIsNew(base: Table, id: nat, i: nat)
    ensures Fd(base, id, i) !in base
  {
    if Fd(base, id, i) in base {
      BaseKept(base, id, i, Fd(base, id, i));
    }
  }

  // Where everything belongs, for a chain of n filters: the numbers under which the five
  // descriptors of a process, and the daemon's ends, are opened

  function StdinAt(n: nat, k: nat): nat {
    if k == 0 then 0 else 9 + 2 * n + 2 * k
  }

  function StdoutAt(n: nat, k: nat): nat {
    12 + 2 * n + 2 * k
  }

  function StderrAt(k: nat): nat {
    12 + 2 * k
  }

  /** A job's processes and channels, and the daemon's descriptor table. */
  class Plumbing {
    const sys: Process
    var filters: seq<ProcessFds>
    var backend: ProcessFds
    var fdBack: (int, int)
    var fdSide: (int, int)
    /** History: the daemon's table each time a process was spawned, which is what the child
        starts from. */
    ghost var spawned: seq<Table>
    ghost const base: Table
    ghost const id: nat
    /** The descriptor opened as number `i`. */
    ghost const d: nat -> nat

    constructor (sys: Process)
      ensures this.sys == sys && base == sys.table && id == sys.created && Numbered()
      ensures filters == [] && spawned == [] && fresh(backend)
      ensures backend.childFd == UNSET && backend.parentFd == UNSET
    {
      this.sys := sys;
      filters, spawned := [], [];
      backend := new ProcessFds();
      fdBack, fdSide := (-1, -1), (-1, -1);
      base, id := sys.table, sys.created;
      ghost var t, created := sys.table, sys.created;
      d := (i: nat) => Fd(t, created, i);
    }

    ghost function D(i: nat): (fd: int)
      ensures 0 <= fd
    {
      d(i)
    }

    /** It is the lowest free one at its turn. Only for numbers that a proof singles out. */
    ghost predicate Numbered() {
      forall i: nat {:trigger Singled(i)} :: Singled(i) ==> d(i) == Fd(base, id, i)
    }

    ghost predicate Singled(i: nat) {
      true
    }

    lemma Differ(i: nat, j: nat)
      requires Numbered() && i != j
      ensures D(i) != D(j)
    {
      assert Singled(i) && Singled(j);
      FdsDiffer(base, id, i, j);
    }

    lemma IsNew(i: nat)
      requires Numbered()
      ensures D(i) !in base
    {
      assert Singled(i);
      FdIsNew(base, id, i);
    }

    lemma Kept(i: nat, m: nat)
      requires Numbered() && i < m
      ensures D(i) in TableAt(base, id, m) && TableAt(base, id, m)[D(i)] == FileAt(i, id)
    {
      assert Singled(i);
      FdKept(base, id, i, m);
    }

    ghost predicate Separate()
      reads this
    {
      && (forall i, k :: 0 <= i < k < |filters| ==> filters[i] != filters[k])
      && backend !in filters
    }

    /** The document and `p` pairs have been opened. */
    ghost predicate Opened(p: nat)
      reads sys
    {
      sys.created == id + p && sys.table == TableAt(base, id, 1 + 2 * p)
    }

    method OpenDocument() returns (documentFd: int)
      requires Numbered() && sys.table == base && sys.created == id
      modifies sys`table
      ensures Opened(0) && documentFd == D(0)
    {
      documentFd := sys.Open(Document);
      assert Singled(0);
    }

    method AddPipe(ghost p: nat) returns (ends: (int, int))
      requires Numbered() && Opened(p) && p != 4
      modifies sys
      ensures Opened(p + 1) && ends == (D(1 + 2 * p), D(2 + 2 * p))
    {
      ends := sys.MakePipe();
      PairFiles(p, id);
      assert Singled(1 + 2 * p) && Singled(2 + 2 * p);
    }

    method AddSocketPair() returns (sides: (int, int))
      requires Numbered() && Opened(4)
      modifies sys
      ensures Opened(5) && sides == (D(9), D(10))
    {
      sides := sys.MakeSocketPair();
      PairFiles(4, id);
      assert Singled(9) && Singled(10);
    }

    /** pd_job_impl_create_pipe_for */
    method CreatePipeFor(jp: ProcessFds, fd: nat, out: bool, ghost p: nat)
      requires Numbered() && Opened(p) && p != 4 && fd < PD_FD_MAX && |jp.childFd| == |jp.parentFd| == PD_FD_MAX
      modifies sys, jp`childFd, jp`parentFd
      ensures Opened(p + 1)
      ensures jp.childFd == old(jp.childFd)[fd := if out then D(2 + 2 * p) else D(1 + 2 * p)]
      ensures jp.parentFd == old(jp.parentFd)[fd := if out then D(1 + 2 * p) else D(2 + 2 * p)]
    {
      var ends := AddPipe(p);
      jp.childFd := jp.childFd[fd := if out then ends.1 else ends.0];
      jp.parentFd := jp.parentFd[fd := if out then ends.0 else ends.1];
    }

    /** A chain of `n` new processes. */
    method AppendFilters(n: nat)
      requires Numbered() && filters == [] && Separate()
      modifies this`filters
      ensures |filters| == n && Separate() && (forall k :: 0 <= k < n ==> fresh(filters[k]))
      ensures forall k :: 0 <= k < n ==> filters[k].childFd == UNSET && filters[k].parentFd == UNSET
    {
      for k := 0 to n
        invariant |filters| == k && Separate() && (forall j :: 0 <= j < k ==> fresh(filters[j]))
        invariant forall j :: 0 <= j < k ==> filters[j].childFd == UNSET && filters[j].parentFd == UNSET
      {
        var jp := new ProcessFds();
        filters := filters + [jp];
      }
    }

    ghost function BackendChild(): seq<int> {
      [D(1), D(4), D(6), D(8), D(10)]
    }

    ghost function BackendParent(): seq<int> {
      [D(2), D(3), D(5), -1, -1]
    }

    /** Pipes for the backend's stdin, stdout and stderr. */
    method MakeBackendPipes()
      requires Numbered() && Opened(0) && backend.childFd == UNSET && backend.parentFd == UNSET
      modifies sys, backend`childFd, backend`parentFd
      ensures Opened(3)
      ensures backend.childFd == [D(1), D(4), D(6), -1, -1] && backend.parentFd == BackendParent()
    {
      CreatePipeFor(backend, 0, false, 0);
      CreatePipeFor(backend, 1, true, 1);
      CreatePipeFor(backend, 2, true, 2);
    }

    /** Give every filter the same descriptor at `slot`. */
    method ShareWithFilters(slot: nat, fd: int)
      requires Numbered() && Separate() && slot < PD_FD_MAX
      requires forall k :: 0 <= k < |filters| ==> |filters[k].childFd| == PD_FD_MAX
      modifies filters
      ensures forall k :: 0 <= k < |filters| ==> filters[k].childFd == old(filters[k].childFd)[slot := fd]
      ensures forall k :: 0 <= k < |filters| ==> filters[k].parentFd == old(filters[k].parentFd)
    {
      for k := 0 to |filters|
        invariant forall j :: 0 <= j < |filters| ==> filters[j].parentFd == old(filters[j].parentFd)
        invariant forall j :: 0 <= j < k ==> filters[j].childFd == old(filters[j].childFd)[slot := fd]
        invariant forall j :: k <= j < |filters| ==> filters[j].childFd == old(filters[j].childFd)
      {
        filters[k].childFd := filters[k].childFd[slot := fd];
      }
    }

    // The stages of a filter's descriptors while the chain is set up

    ghost function Shared(): seq<int> {
      UNSET[PD_FD_BACK := D(7)][PD_FD_SIDE := D(9)]
    }

    ghost function WithStderr(k: nat): seq<int> {
      Shared()[2 := D(StderrAt(k))]
    }

    ghost function StderrEnd(k: nat): seq<int> {
      UNSET[2 := D(11 + 2 * k)]
    }

    /** Filter `k` of `n` when the pipes behind the first `done` filters have been made. */
    ghost function Joined(n: nat, done: nat, k: nat): seq<int> {
      var front := if 0 < k <= done then WithStderr(k)[0 := D(StdinAt(n, k))] else WithStderr(k);
      if k < done then front[1 := D(StdoutAt(n, k))] else front
    }

    /** The back-channel pipe and the side-channel socket pair. */
    method MakeChannels()
      requires Numbered() && Separate() && Opened(3) && backend.childFd == [D(1), D(4), D(6), -1, -1]
      requires forall k :: 0 <= k < |filters| ==> filters[k].childFd == UNSET && filters[k].parentFd == UNSET
      modifies sys, this`fdBack, this`fdSide, backend`childFd, filters
      ensures Opened(5) && fdBack == (D(7), D(8)) && fdSide == (D(9), D(10))
      ensures backend.childFd == BackendChild()
      ensures forall k :: 0 <= k < |filters| ==> filters[k].childFd == Shared() && filters[k].parentFd == UNSET
    {
      fdBack := AddPipe(3);
      fdSide := AddSocketPair();
      backend.childFd := backend.childFd[PD_FD_BACK := fdBack.1][PD_FD_SIDE := fdSide.1];
      ShareWithFilters(PD_FD_BACK, fdBack.0);
      ShareWithFilters(PD_FD_SIDE, fdSide.0);
    }

    /** A pipe for every filter's stderr. */
    method MakeStderrPipes()
      requires Numbered() && Separate() && Opened(5)
      requires forall k :: 0 <= k < |filters| ==> |filters[k].childFd| == |filters[k].parentFd| == PD_FD_MAX
      modifies sys, filters
      ensures Opened(5 + |filters|)
      ensures forall k :: 0 <= k < |filters| ==> filters[k].childFd == old(filters[k].childFd)[2 := D(StderrAt(k))]
      ensures forall k :: 0 <= k < |filters| ==> filters[k].parentFd == old(filters[k].parentFd)[2 := D(11 + 2 * k)]
    {
      var chain := filters;
      for k := 0 to |chain|
        invariant Opened(5 + k)
        invariant forall j :: 0 <= j < k ==> chain[j].childFd == old(chain[j].childFd)[2 := D(StderrAt(j))]
        invariant forall j :: 0 <= j < k ==> chain[j].parentFd == old(chain[j].parentFd)[2 := D(11 + 2 * j)]
        invariant forall j :: k <= j < |chain| ==> chain[j].childFd == old(chain[j].childFd)
        invariant forall j :: k <= j < |chain| ==> chain[j].parentFd == old(chain[j].parentFd)
      {
        MakeStderrPipe(k, chain[k]);
      }
    }

    method MakeStderrPipe(k: nat, jp: ProcessFds)
      requires Numbered() && Opened(5 + k) && |jp.childFd| == |jp.parentFd| == PD_FD_MAX
      modifies sys, jp`childFd, jp`parentFd
      ensures Opened(6 + k)
      ensures jp.childFd == old(jp.childFd)[2 := D(StderrAt(k))]
      ensures jp.parentFd == old(jp.parentFd)[2 := D(11 + 2 * k)]
    {
      CreatePipeFor(jp, 2, true, 5 + k);
    }

    /** A pipe between each filter and the next. */
    method JoinFilters()
      requires Numbered() && Separate() && 0 < |filters| && Opened(5 + |filters|)
      requires forall k :: 0 <= k < |filters| ==> filters[k].childFd == WithStderr(k)
      modifies sys, filters
      ensures Opened(4 + 2 * |filters|)
      ensures forall k :: 0 <= k < |filters| ==> filters[k].childFd == Joined(|filters|, |filters| - 1, k)
      ensures forall k :: 0 <= k < |filters| ==> filters[k].parentFd == old(filters[k].parentFd)
    {
      ghost var n := |filters|;
      for k := 0 to |filters| - 1
        invariant Opened(5 + n + k)
        invariant forall j :: 0 <= j < n ==> filters[j].childFd == Joined(n, k, j)
        invariant forall j :: 0 <= j < n ==> filters[j].parentFd == old(filters[j].parentFd)
      {
        JoinTwo(n, k, filters[k], filters[k + 1]);
        JoinedElsewhere(n, k);
      }
    }

    method JoinTwo(ghost n: nat, ghost k: nat, jp: ProcessFds, next: ProcessFds)
      requires Numbered() && Opened(5 + n + k) && 0 < n && jp != next
      requires |jp.childFd| == |next.childFd| == PD_FD_MAX
      modifies sys, jp`childFd, next`childFd
      ensures Opened(6 + n + k)
      ensures jp.childFd == old(jp.childFd)[1 := D(StdoutAt(n, k))]
      ensures next.childFd == old(next.childFd)[0 := D(StdinAt(n, k + 1))]
    {
      var ends := AddPipe(5 + n + k);
      jp.childFd := jp.childFd[1 := ends.1];
      next.childFd := next.childFd[0 := ends.0];
    }

    lemma JoinedElsewhere(n: nat, k: nat)
      requires Numbered()
      ensures forall j: nat :: j != k && j != k + 1 ==> Joined(n, k + 1, j) == Joined(n, k, j)
    {
    }

    ghost function FilterChild(n: nat, k: nat): seq<int> {
      [D(StdinAt(n, k)), D(StdoutAt(n, k)), D(StderrAt(k)), D(7), D(9)]
    }

    ghost function FilterParent(n: nat, k: nat): seq<int> {
      if k == n - 1 then StderrEnd(k)[1 := D(4 * n + 9)] else StderrEnd(k)
    }

    /** Filter `k` once the document is connected to the first one. */
    ghost function Fronted(n: nat, k: nat): seq<int>
      requires 0 < n
    {
      if k == 0 then Joined(n, n - 1, k)[0 := D(0)] else Joined(n, n - 1, k)
    }

    ghost function Finished(n: nat, k: nat): seq<int>
      requires 0 < n
    {
      if k == n - 1 then Fronted(n, k)[1 := D(4 * n + 10)] else Fronted(n, k)
    }

    lemma Complete(n: nat, k: nat)
      requires Numbered() && k < n
      ensures Finished(n, k) == FilterChild(n, k)
    {
    }

    /** The document at the front of the chain. */
    method ConnectDocument(documentFd: int)
      requires Numbered() && Separate() && 0 < |filters| && documentFd == D(0)
      requires forall k :: 0 <= k < |filters| ==> filters[k].childFd == Joined(|filters|, |filters| - 1, k)
      modifies filters
      ensures forall k :: 0 <= k < |filters| ==> filters[k].childFd == Fronted(|filters|, k)
      ensures forall k :: 0 <= k < |filters| ==> filters[k].parentFd == old(filters[k].parentFd)
    {
      var first := filters[0];
      first.childFd := first.childFd[0 := documentFd];
    }

    /** A pipe for the output of the last filter. */
    method MakeOutputPipe()
      requires Numbered() && Separate() && 0 < |filters| && Opened(4 + 2 * |filters|)
      requires forall k :: 0 <= k < |filters| ==> filters[k].childFd == Fronted(|filters|, k)
      requires forall k :: 0 <= k < |filters| ==> filters[k].parentFd == StderrEnd(k)
      modifies sys, filters
      ensures Opened(5 + 2 * |filters|)
      ensures forall k :: 0 <= k < |filters| ==> filters[k].childFd == Finished(|filters|, k)
      ensures forall k :: 0 <= k < |filters| ==> filters[k].parentFd == FilterParent(|filters|, k)
    {
      MakeLastPipe(filters[|filters| - 1], |filters|);
    }

    method MakeLastPipe(last: ProcessFds, ghost n: nat)
      requires Numbered() && 0 < n && Opened(4 + 2 * n) && |last.childFd| == |last.parentFd| == PD_FD_MAX
      modifies sys, last`childFd, last`parentFd
      ensures Opened(5 + 2 * n)
      ensures last.childFd == old(last.childFd)[1 := D(4 * n + 10)]
      ensures last.parentFd == old(last.parentFd)[1 := D(4 * n + 9)]
    {
      assert 1 + 2 * (4 + 2 * n) == 4 * n + 9;
      CreatePipeFor(last, 1, true, 4 + 2 * n);
    }

    /** The filters are joined to each other, to the document and to the daemon. */
    method ConnectFilters(documentFd: int)
      requires Numbered() && Separate() && 0 < |filters| && Opened(5 + |filters|) && documentFd == D(0)
      requires forall k :: 0 <= k < |filters| ==> filters[k].childFd == WithStderr(k)
      requires forall k :: 0 <= k < |filters| ==> filters[k].parentFd == StderrEnd(k)
      modifies sys, filters
      ensures sys.table == Less(|filters|, {})
      ensures forall k :: 0 <= k < |filters| ==> filters[k].childFd == FilterChild(|filters|, k)
      ensures forall k :: 0 <= k < |filters| ==> filters[k].parentFd == FilterParent(|filters|, k)
    {
      JoinFilters();
      ConnectDocument(documentFd);
      MakeOutputPipe();
      AllComplete(|filters|);
    }

    /** All the pipes and channels of the chain, in the order of pd_job_impl_start_processing. */
    method Connect(documentFd: int)
      requires Numbered() && Separate() && 0 < |filters| && Opened(0) && documentFd == D(0)
      requires backend.childFd == UNSET && backend.parentFd == UNSET
      requires forall k :: 0 <= k < |filters| ==> filters[k].childFd == UNSET && filters[k].parentFd == UNSET
      modifies sys, this`fdBack, this`fdSide, backend`childFd, backend`parentFd, filters
      ensures Connected(|filters|, {})
    {
      MakeBackendPipes();
      MakeChannels();
      MakeStderrPipes();
      ConnectFilters(documentFd);
    }

    lemma AllComplete(n: nat)
      requires Numbered() && 0 < n
      ensures forall k :: 0 <= k < n ==> Finished(n, k) == FilterChild(n, k)
      ensures TableAt(base, id, 1 + 2 * (5 + 2 * n)) == Less(n, {})
    {
      forall k | 0 <= k < n ensures Finished(n, k) == FilterChild(n, k) {
        Complete(n, k);
      }
      assert 1 + 2 * (5 + 2 * n) == Total(n);
    }

    // Running the processes

    /** The number of descriptors opened for a chain of `n` filters. */
    function Total(n: nat): nat {
      4 * n + 11
    }

    ghost function Fds(numbers: set<nat>): set<int> {
      set i | i in numbers :: D(i)
    }

    /** Everything opened for the chain, less what has been closed since. */
    ghost function Less(n: nat, gone: set<nat>): Table {
      TableAt(base, id, Total(n)) - Fds(gone)
    }

    ghost predicate Connected(n: nat, gone: set<nat>)
      reads this, sys, filters, backend
    {
      && Separate() && 0 < n == |filters|
      && sys.table == Less(n, gone)
      && fdBack == (D(7), D(8)) && fdSide == (D(9), D(10))
      && backend.childFd == BackendChild() && backend.parentFd == BackendParent()
      && (forall k :: 0 <= k < n ==> filters[k].childFd == FilterChild(n, k))
      && (forall k :: 0 <= k < n ==> filters[k].parentFd == FilterParent(n, k))
    }

    lemma StillOpen(n: nat, gone: set<nat>, i: nat)
      requires Numbered() && i < Total(n) && i !in gone
      ensures D(i) in Less(n, gone) && Less(n, gone)[D(i)] == FileAt(i, id)
    {
      Kept(i, Total(n));
      forall j | j in gone ensures D(j) != D(i) {
        Differ(j, i);
      }
    }

    lemma ThreeMore(n: nat, gone: set<nat>, a: nat, b: nat, c: nat)
      requires Numbered()
      ensures Less(n, gone) - {D(a), D(b), D(c)} == Less(n, gone + {a, b, c})
    {
      assert Fds(gone + {a, b, c}) == Fds(gone) + {D(a), D(b), D(c)};
    }

    lemma TwoMore(n: nat, gone: set<nat>, a: nat, b: nat)
      requires Numbered()
      ensures Less(n, gone) - {D(a), D(b)} == Less(n, gone + {a, b})
    {
      assert Fds(gone + {a, b}) == Fds(gone) + {D(a), D(b)};
    }

    /** pd_job_impl_run_process: the child's table starts as a copy of the daemon's, and the
        daemon then closes the child's in, out and err. `ok` says that every close succeeded. */
    method RunProcess(jp: ProcessFds) returns (ok: bool)
      requires Numbered() && |jp.childFd| == PD_FD_MAX
      requires forall i :: 0 <= i < 3 ==> jp.childFd[i] != -1 && jp.childFd[i] in sys.table
      requires jp.childFd[0] != jp.childFd[1] && jp.childFd[0] != jp.childFd[2] && jp.childFd[1] != jp.childFd[2]
      modifies sys`table, this`spawned
      ensures spawned == old(spawned) + [old(sys.table)] && ok
      ensures sys.table == old(sys.table) - {jp.childFd[0], jp.childFd[1], jp.childFd[2]}
    {
      spawned := spawned + [sys.table];
      ok := true;
      for i := 0 to 3
        invariant ok && spawned == old(spawned) + [old(sys.table)]
        invariant sys.table == old(sys.table) - (set k | 0 <= k < i :: jp.childFd[k])
      {
        if jp.childFd[i] != -1 {
          var closed := sys.Close(jp.childFd[i]);
          ok := ok && closed;
        }
      }
    }

    /** What running the first `m` filters has closed. */
    ghost function GoneAfter(n: nat, m: nat): set<nat> {
      if m == 0 then {}
      else GoneAfter(n, m - 1) + {StdinAt(n, m - 1), StdoutAt(n, m - 1), StderrAt(m - 1)}
    }

    /** Running the first `m` filters has closed the document, and of each pipe to a filter the
        end that the filter uses. */
    lemma {:induction false} GoneAre(n: nat, m: nat, i: nat)
      requires Numbered() && m <= n
      ensures i in GoneAfter(n, m) <==>
                || (i == 0 && 0 < m)
                || (i % 2 == 0 && 12 <= i < 12 + 2 * m)
                || (i % 2 == 0 && 12 + 2 * n <= i < 12 + 2 * n + 2 * m)
                || (i % 2 == 1 && 11 + 2 * n <= i < 9 + 2 * n + 2 * m)
    {
      if m > 0 {
        GoneAre(n, m - 1, i);
      }
    }

    /** The daemon's table when filter `k` of `n` is spawned. */
    ghost function FilterImage(n: nat, k: nat): Table {
      if k == 0 then TableAt(base, id, Total(n))
      else FilterImage(n, k - 1) - {D(StdinAt(n, k - 1)), D(StdoutAt(n, k - 1)), D(StderrAt(k - 1))}
    }

    lemma {:induction false} FilterImageIs(n: nat, k: nat)
      requires Numbered()
      ensures FilterImage(n, k) == Less(n, GoneAfter(n, k))
    {
      if k == 0 {
        assert Fds({}) == {};
      } else {
        FilterImageIs(n, k - 1);
        var gone := GoneAfter(n, k - 1);
        ThreeMore(n, gone, StdinAt(n, k - 1), StdoutAt(n, k - 1), StderrAt(k - 1));
        assert GoneAfter(n, k) == gone + {StdinAt(n, k - 1), StdoutAt(n, k - 1), StderrAt(k - 1)};
      }
    }

    /** The numbers of filter `k`'s own descriptors are all different, and still open when it is
        its turn. */
    ghost predicate IsFilterFd(n: nat, k: nat, i: nat) {
      i == StdinAt(n, k) || i == StdoutAt(n, k) || i == StderrAt(k) || i == 7 || i == 9
    }

    lemma NotGoneYet(n: nat, k: nat, i: nat)
      requires Numbered() && k < n && IsFilterFd(n, k, i)
      ensures i < Total(n) && i !in GoneAfter(n, k)
    {
      GoneAre(n, k, i);
    }

    lemma FilterOpen(n: nat, k: nat, i: nat)
      requires Numbered() && k < n && IsFilterFd(n, k, i)
      ensures D(i) in FilterImage(n, k) && FilterImage(n, k)[D(i)] == FileAt(i, id)
    {
      NotGoneYet(n, k, i);
      FilterImageIs(n, k);
      OpenIn(n, GoneAfter(n, k), i, FilterImage(n, k));
    }

    lemma OpenIn(n: nat, gone: set<nat>, i: nat, t: Table)
      requires Numbered() && i < Total(n) && i !in gone && t == Less(n, gone)
      ensures D(i) in t && t[D(i)] == FileAt(i, id)
    {
      StillOpen(n, gone, i);
    }

    lemma FilterDistinct(n: nat, k: nat)
      requires Numbered() && k < n
      ensures forall i, j :: 0 <= i < j < PD_FD_MAX ==> FilterChild(n, k)[i] != FilterChild(n, k)[j]
    {
      var at := FilterAt(n, k);
      forall i, j | 0 <= i < j < PD_FD_MAX ensures FilterChild(n, k)[i] != FilterChild(n, k)[j] {
        assert FilterChild(n, k)[i] == D(at[i]) && FilterChild(n, k)[j] == D(at[j]);
        Differ(at[i], at[j]);
      }
    }

    method RunFilter(ghost n: nat, ghost k: nat, jp: ProcessFds) returns (ok: bool)
      requires Numbered() && k < n && sys.table == FilterImage(n, k) && jp.childFd == FilterChild(n, k)
      modifies sys`table, this`spawned
      ensures ok && spawned == old(spawned) + [FilterImage(n, k)] && sys.table == FilterImage(n, k + 1)
    {
      FilterOpen(n, k, StdinAt(n, k));
      FilterOpen(n, k, StdoutAt(n, k));
      FilterOpen(n, k, StderrAt(k));
      FilterDistinct(n, k);
      ok := RunProcess(jp);
    }

    /** The loop of pd_job_impl_start_processing that runs the filters. */
    method RunFilters() returns (ok: bool)
      requires Numbered() && Separate() && sys.table == FilterImage(|filters|, 0) && spawned == []
      requires forall k :: 0 <= k < |filters| ==> filters[k].childFd == FilterChild(|filters|, k)
      modifies sys`table, this`spawned
      ensures ok && sys.table == FilterImage(|filters|, |filters|) && spawned == FilterImages(|filters|, |filters|)
    {
      ok := true;
      for k := 0 to |filters|
        invariant ok && sys.table == FilterImage(|filters|, k) && spawned == FilterImages(|filters|, k)
      {
        ok := RunFilter(|filters|, k, filters[k]);
      }
    }

    /** The tables from which the first `m` filters are spawned. */
    ghost function FilterImages(n: nat, m: nat): seq<Table> {
      if m == 0 then [] else FilterImages(n, m - 1) + [FilterImage(n, m - 1)]
    }

    lemma {:induction false} FilterImagesAre(n: nat, m: nat)
      ensures |FilterImages(n, m)| == m
      ensures forall k :: 0 <= k < m ==> FilterImages(n, m)[k] == FilterImage(n, k)
    {
      if m > 0 {
        FilterImagesAre(n, m - 1);
      }
    }

    /** The daemon closes the ends of the channels that only the filters use. */
    method CloseFilterSides(ghost n: nat) returns (ok: bool)
      requires Numbered() && 0 < n && sys.table == FilterImage(n, n) && fdBack == (D(7), D(8)) && fdSide == (D(9), D(10))
      modifies sys`table, this`fdBack, this`fdSide
      ensures ok && sys.table == BackendImage(n)
      ensures fdBack == (-1, D(8)) && fdSide == (-1, D(10))
    {
      FilterImageIs(n, n);
      ChannelsOpen(n, 7, 9);
      var back := sys.Close(fdBack.0);
      var side := sys.Close(fdSide.0);
      TwoMore(n, GoneAfter(n, n), 7, 9);
      ok := back && side;
      fdBack, fdSide := (-1, fdBack.1), (-1, fdSide.1);
    }

    /** The daemon's table when the backend is spawned. */
    ghost function BackendImage(n: nat): Table {
      Less(n, GoneAfter(n, n) + {7, 9})
    }

    lemma ChannelsOpen(n: nat, i: nat, j: nat)
      requires Numbered() && 0 < n && i < 11 && j < 11 && 0 < i && 0 < j && i != j
      ensures D(i) in FilterImage(n, n) && D(j) in FilterImage(n, n) && D(i) != D(j)
    {
      FilterImageIs(n, n);
      GoneAre(n, n, i);
      GoneAre(n, n, j);
      StillOpen(n, GoneAfter(n, n), i);
      StillOpen(n, GoneAfter(n, n), j);
      Differ(i, j);
    }

    method RunBackend(ghost n: nat) returns (ok: bool)
      requires Numbered() && 0 < n && sys.table == BackendImage(n) && backend.childFd == BackendChild()
      modifies sys`table, this`spawned
      ensures ok && spawned == old(spawned) + [BackendImage(n)]
      ensures sys.table == Less(n, GoneAfter(n, n) + {7, 9} + {1, 4, 6})
    {
      BackendOpen(n);
      BackendDistinct();
      ok := RunProcess(backend);
      ThreeMore(n, GoneAfter(n, n) + {7, 9}, 1, 4, 6);
    }

    /** pd_job_impl_start_sending: the backend is run and its sides of the channels are closed. */
    method Send(ghost n: nat) returns (ok: bool)
      requires Numbered() && 0 < n && sys.table == BackendImage(n) && backend.childFd == BackendChild()
      requires fdBack == (-1, D(8)) && fdSide == (-1, D(10))
      modifies sys`table, this`spawned, this`fdBack, this`fdSide
      ensures ok && spawned == old(spawned) + [BackendImage(n)] && sys.table == Left(n)
    {
      ok := RunBackend(n);
      var closed := CloseBackendSides(n);
      ok := ok && closed;
    }

    method CloseBackendSides(ghost n: nat) returns (ok: bool)
      requires Numbered() && 0 < n && sys.table == Less(n, GoneAfter(n, n) + {7, 9} + {1, 4, 6})
      requires fdBack == (-1, D(8)) && fdSide == (-1, D(10))
      modifies sys`table, this`fdBack, this`fdSide
      ensures ok && sys.table == Left(n)
    {
      ghost var gone := GoneAfter(n, n) + {7, 9} + {1, 4, 6};
      BackendSidesOpen(n, gone);
      var back := sys.Close(fdBack.1);
      var side := sys.Close(fdSide.1);
      TwoMore(n, gone, 8, 10);
      ok := back && side;
      fdBack, fdSide := (-1, -1), (-1, -1);
    }

    lemma BackendSidesOpen(n: nat, gone: set<nat>)
      requires Numbered() && 0 < n && gone == GoneAfter(n, n) + {7, 9} + {1, 4, 6}
      ensures D(8) in Less(n, gone) && D(10) in Less(n, gone) && D(8) != D(10)
    {
      GoneAre(n, n, 8);
      GoneAre(n, n, 10);
      StillOpen(n, gone, 8);
      StillOpen(n, gone, 10);
      Differ(8, 10);
    }

    ghost function AllGone(n: nat): set<nat> {
      GoneAfter(n, n) + {7, 9} + {1, 4, 6} + {8, 10}
    }

    lemma BackendOpen(n: nat)
      requires Numbered()
      ensures forall k :: 0 <= k < PD_FD_MAX ==> BackendChild()[k] in BackendImage(n)
      ensures forall k :: 0 <= k < PD_FD_MAX ==> BackendImage(n)[BackendChild()[k]] == FileAt(BackendAt()[k], id)
    {
      forall k | 0 <= k < PD_FD_MAX
        ensures BackendChild()[k] in BackendImage(n)
        ensures BackendImage(n)[BackendChild()[k]] == FileAt(BackendAt()[k], id)
      {
        assert BackendChild()[k] == D(BackendAt()[k]);
        GoneAre(n, n, BackendAt()[k]);
        StillOpen(n, GoneAfter(n, n) + {7, 9}, BackendAt()[k]);
      }
    }

    /** The numbers of the backend's descriptors. */
    ghost function BackendAt(): seq<nat> {
      [1, 4, 6, 8, 10]
    }

    lemma BackendDistinct()
      requires Numbered()
      ensures forall i, j :: 0 <= i < j < PD_FD_MAX ==> BackendChild()[i] != BackendChild()[j]
    {
      forall i, j | 0 <= i < j < PD_FD_MAX ensures BackendChild()[i] != BackendChild()[j] {
        assert BackendChild()[i] == D(BackendAt()[i]) && BackendChild()[j] == D(BackendAt()[j]);
        Differ(BackendAt()[i], BackendAt()[j]);
      }
    }

    // Every process is ready for its parallel move

    lemma NotParentEnd(at: nat, ends: seq<int>, numbers: seq<int>)
      requires Numbered() && |ends| == |numbers|
      requires forall i :: 0 <= i < |ends| ==> if numbers[i] < 0 then ends[i] == -1 else ends[i] == D(numbers[i])
      requires at !in numbers
      ensures D(at) !in ends
    {
      forall i | 0 <= i < |ends| ensures ends[i] != D(at) {
        if numbers[i] >= 0 {
          Differ(numbers[i], at);
        }
      }
    }

    lemma FilterReady(n: nat, k: nat)
      requires Numbered() && k < n
      ensures ProcessSetup.Ready(FilterImage(n, k), FilterChild(n, k), FilterParent(n, k))
    {
      forall i | 0 <= i < PD_FD_MAX
        ensures 0 <= FilterChild(n, k)[i] && FilterChild(n, k)[i] in FilterImage(n, k)
        ensures FilterChild(n, k)[i] !in FilterParent(n, k)
      {
        FilterEntry(n, k, i);
      }
      FilterDistinct(n, k);
    }

    /** The numbers of filter `k`'s descriptors. */
    ghost function FilterAt(n: nat, k: nat): seq<nat> {
      [StdinAt(n, k), StdoutAt(n, k), StderrAt(k), 7, 9]
    }

    lemma FilterEntry(n: nat, k: nat, i: nat)
      requires Numbered() && k < n && i < PD_FD_MAX
      ensures 0 <= FilterChild(n, k)[i] && FilterChild(n, k)[i] in FilterImage(n, k)
      ensures FilterImage(n, k)[FilterChild(n, k)[i]] == FileAt(FilterAt(n, k)[i], id)
      ensures FilterChild(n, k)[i] !in FilterParent(n, k)
    {
      var at := FilterAt(n, k)[i];
      assert FilterChild(n, k)[i] == D(at);
      FilterOpen(n, k, at);
      NotParentEnd(at, FilterParent(n, k), [-1, if k == n - 1 then 4 * n + 9 else -1, 11 + 2 * k, -1, -1]);
    }

    lemma BackendReady(n: nat)
      requires Numbered()
      ensures ProcessSetup.Ready(BackendImage(n), BackendChild(), BackendParent())
    {
      BackendOpen(n);
      BackendDistinct();
      BackendEndsDiffer();
    }

    lemma BackendEndsDiffer()
      requires Numbered()
      ensures forall k :: 0 <= k < PD_FD_MAX ==> 0 <= BackendChild()[k] && BackendChild()[k] !in BackendParent()
    {
      forall k | 0 <= k < PD_FD_MAX ensures 0 <= BackendChild()[k] && BackendChild()[k] !in BackendParent() {
        assert BackendChild()[k] == D(BackendAt()[k]);
        NotParentEnd(BackendAt()[k], BackendParent(), [2, 3, 5, -1, -1]);
      }
    }

    // What is left in the daemon

    /** The daemon's ends: of the backend's three pipes, of the last filter's output, and of the
        first `m` filters' stderr. */
    ghost function DaemonEnds(n: nat, m: nat): set<nat> {
      if m == 0 then {2, 3, 5, 4 * n + 9} else DaemonEnds(n, m - 1) + {9 + 2 * m}
    }

    lemma {:induction false} DaemonEndsAre(n: nat, m: nat, i: nat)
      requires Numbered() && 0 < n && m <= n
      ensures i in DaemonEnds(n, m) <==>
                i == 2 || i == 3 || i == 5 || i == 4 * n + 9 || (i % 2 == 1 && 11 <= i < 11 + 2 * m)
    {
      if m > 0 {
        DaemonEndsAre(n, m - 1, i);
      }
    }

    lemma {:induction false} CountDaemonEnds(n: nat, m: nat)
      requires Numbered() && 0 < n && m <= n
      ensures |DaemonEnds(n, m)| == m + 4
    {
      if m > 0 {
        CountDaemonEnds(n, m - 1);
        DaemonEndsAre(n, m - 1, 9 + 2 * m);
      }
    }

    lemma {:induction false} CountFds(numbers: set<nat>)
      requires Numbered()
      ensures |Fds(numbers)| == |numbers|
    {
      if numbers == {} {
        assert Fds(numbers) == {};
      } else {
        var i :| i in numbers;
        CountFds(numbers - {i});
        forall j | j in numbers - {i} ensures D(j) != D(i) {
          Differ(j, i);
        }
        assert Fds(numbers) == Fds(numbers - {i}) + {D(i)};
      }
    }

    ghost predicate IsDaemonEnd(n: nat, i: nat) {
      i == 2 || i == 3 || i == 5 || i == 4 * n + 9 || (i % 2 == 1 && 11 <= i < 11 + 2 * n)
    }

    lemma LeftIffIsDaemonEnd(n: nat, i: nat)
      requires Numbered() && 0 < n
      ensures i < Total(n) && i !in AllGone(n) <==> IsDaemonEnd(n, i)
    {
      GoneAre(n, n, i);
    }

    lemma LeftIffDaemonEnd(n: nat, i: nat)
      requires Numbered() && 0 < n
      ensures i < Total(n) && i !in AllGone(n) <==> i in DaemonEnds(n, n)
    {
      LeftIffIsDaemonEnd(n, i);
      DaemonEndsAre(n, n, i);
    }

    lemma OldOnesUntouched(n: nat, gone: set<nat>, fd: int)
      requires Numbered() && fd in base
      ensures fd in Less(n, gone) && Less(n, gone)[fd] == base[fd]
    {
      BaseKept(base, id, Total(n), fd);
      forall i | i in gone ensures D(i) != fd {
        IsNew(i);
      }
    }

    lemma GoneIsClosed(n: nat, gone: set<nat>, i: nat)
      requires Numbered() && i in gone
      ensures D(i) !in Less(n, gone)
    {
      assert D(i) in Fds(gone);
    }

    lemma LeftIsOldOrDaemonEnd(n: nat, fd: int)
      requires Numbered() && 0 < n && fd in Left(n)
      ensures fd in base || fd in Fds(DaemonEnds(n, n))
    {
      NothingElse(base, id, Total(n), fd);
      if fd !in base {
        var i: nat :| i < Total(n) && fd == Fd(base, id, i);
        assert Singled(i);
        if i in AllGone(n) {
          GoneIsClosed(n, AllGone(n), i);
        }
        LeftIffDaemonEnd(n, i);
      }
    }

    lemma DaemonEndsAreNew(n: nat)
      requires Numbered() && 0 < n
      ensures forall fd :: fd in Fds(DaemonEnds(n, n)) ==> fd in Left(n) && fd !in base
    {
      forall i | i in DaemonEnds(n, n) ensures D(i) in Left(n) && D(i) !in base {
        LeftIffDaemonEnd(n, i);
        StillOpen(n, AllGone(n), i);
        IsNew(i);
      }
    }

    /** Conservation: of all that was opened, exactly n + 4 descriptors are left. */
    lemma WhatIsLeft(n: nat)
      requires Numbered() && 0 < n
      ensures Left(n).Keys == base.Keys + Fds(DaemonEnds(n, n))
      ensures (forall fd :: fd in Fds(DaemonEnds(n, n)) ==> fd !in base) && |Fds(DaemonEnds(n, n))| == n + 4
      ensures forall fd :: fd in base ==> fd in Left(n) && Left(n)[fd] == base[fd]
    {
      CountDaemonEnds(n, n);
      CountFds(DaemonEnds(n, n));
      DaemonEndsAreNew(n);
      OldOnesStay(n);
      NothingElseIsLeft(n);
      MadeOf(Left(n), base, Fds(DaemonEnds(n, n)));
    }

    lemma MadeOf(t: Table, u: Table, fds: set<int>)
      requires forall fd :: fd in t ==> fd in u || fd in fds
      requires forall fd :: fd in u ==> fd in t
      requires forall fd :: fd in fds ==> fd in t && fd !in u
      ensures t.Keys == u.Keys + fds
    {
      forall fd ensures fd in t.Keys <==> fd in u.Keys + fds {
      }
    }

    lemma OldOnesStay(n: nat)
      requires Numbered()
      ensures forall fd :: fd in base ==> fd in Left(n) && Left(n)[fd] == base[fd]
    {
      forall fd | fd in base ensures fd in Left(n) && Left(n)[fd] == base[fd] {
        OldOnesUntouched(n, AllGone(n), fd);
      }
    }

    lemma NothingElseIsLeft(n: nat)
      requires Numbered() && 0 < n
      ensures forall fd :: fd in Left(n) ==> fd in base || fd in Fds(DaemonEnds(n, n))
    {
      forall fd | fd in Left(n) ensures fd in base || fd in Fds(DaemonEnds(n, n)) {
        LeftIsOldOrDaemonEnd(n, fd);
      }
    }

    /** Where the daemon keeps an end: the descriptor and the file behind it. */
    lemma DaemonEndFile(n: nat, i: nat)
      requires Numbered() && 0 < n && IsDaemonEnd(n, i)
      ensures D(i) in Left(n) && Left(n)[D(i)] == FileAt(i, id)
    {
      LeftIffIsDaemonEnd(n, i);
      StillOpen(n, AllGone(n), i);
    }

    // What every child is given

    /** Descriptors are given out in increasing order. */
    lemma Increasing(i: nat, j: nat)
      requires Numbered() && i < j
      ensures D(i) < D(j)
    {
      assert Singled(i) && Singled(j);
      Differ(i, j);
      Kept(i, j);
      forall fd | fd in TableAt(base, id, i) ensures fd in TableAt(base, id, j) {
        TableGrows(base, id, i, j, fd);
      }
    }

    lemma {:induction false} AtLeast(i: nat)
      requires Numbered()
      ensures i <= D(i)
    {
      if i > 0 {
        AtLeast(i - 1);
        Increasing(i - 1, i);
      }
    }

    /** Whatever the daemon has open, no descriptor of a filter is in the way of the parallel
        move: only the document can be below 7, and nothing else can be 5. */
    lemma FilterNotTrampled(n: nat, k: nat)
      requires Numbered() && k < n
      ensures !ProcessSetup.Trampled(FilterChild(n, k))
    {
      forall i | 1 <= i < PD_FD_MAX ensures 7 <= FilterChild(n, k)[i] {
        AtLeast(FilterAt(n, k)[i]);
        assert FilterChild(n, k)[i] == D(FilterAt(n, k)[i]);
      }
      if k > 0 {
        AtLeast(StdinAt(n, k));
      }
    }

    /** The numbers below `m` that the daemon had not open. */
    ghost function FreeBelow(m: nat): nat {
      if m == 0 then 0 else FreeBelow(m - 1) + (if m - 1 in base then 0 else 1)
    }

    lemma {:induction false} NoneFree(m: nat, k: nat)
      requires m <= k && forall fd :: m <= fd < k ==> fd in base
      ensures FreeBelow(k) == FreeBelow(m)
      decreases k
    {
      if m < k {
        NoneFree(m, k - 1);
      }
    }

    /** Descriptor `i` is the one with `i` free numbers below it. */
    lemma {:induction false} FreeBelowIs(i: nat)
      requires Numbered()
      ensures D(i) !in base && FreeBelow(D(i)) == i
    {
      IsNew(i);
      assert Singled(i);
      if i == 0 {
        NoneFree(0, D(0));
      } else {
        FreeBelowIs(i - 1);
        Increasing(i - 1, i);
        forall fd | D(i - 1) < fd < D(i) ensures fd in base {
          BetweenTwo(i, fd);
        }
        NoneFree(D(i - 1) + 1, D(i));
      }
    }

    lemma BetweenTwo(i: nat, fd: int)
      requires Numbered() && 0 < i && D(i - 1) < fd < D(i)
      ensures fd in base
    {
      assert Singled(i);
      NothingElse(base, id, i, fd);
      if fd !in base {
        var k: nat :| k < i && fd == Fd(base, id, k);
        assert Singled(k);
        if k < i - 1 {
          Increasing(k, i - 1);
        }
      }
    }

    lemma {:induction false} FreeBelowGrows(m: nat, k: nat)
      requires m <= k
      ensures FreeBelow(m) <= FreeBelow(k)
      decreases k
    {
      if m < k {
        FreeBelowGrows(m, k - 1);
      }
    }

    lemma SameCount(a: nat, b: nat)
      requires a !in base && b !in base && FreeBelow(a) == FreeBelow(b)
      ensures a == b
    {
      if a < b {
        CountRises(a, b);
      } else if b < a {
        CountRises(b, a);
      }
    }

    lemma CountRises(a: nat, b: nat)
      requires a < b && a !in base
      ensures FreeBelow(a) < FreeBelow(b)
    {
      FreeBelowGrows(a + 1, b);
    }

    /** And the only one. */
    lemma IsNumber(i: nat, fd: nat)
      requires Numbered()
      ensures D(i) == fd <==> fd !in base && FreeBelow(fd) == i
    {
      FreeBelowIs(i);
      if fd !in base && FreeBelow(fd) == i {
        SameCount(D(i), fd);
      }
    }

    /** The tables with which the backend's move goes wrong: exactly one of 0 to 4 is open and 5
        is not, or none of 0 to 6 is open. */
    ghost predicate Tramples() {
      || (5 !in base && exists only: nat :: only < 5 && only in base && forall fd: nat :: fd < 5 && fd in base ==> fd == only)
      || (forall fd: nat :: fd < 7 ==> fd !in base)
    }

    lemma FourBelowFive()
      ensures FreeBelow(5) == 4 <==>
                exists only: nat :: only < 5 && only in base && forall fd: nat :: fd < 5 && fd in base ==> fd == only
      ensures FreeBelow(5) == (if 0 in base then 0 else 1) + (if 1 in base then 0 else 1) + (if 2 in base then 0 else 1)
                              + (if 3 in base then 0 else 1) + (if 4 in base then 0 else 1)
    {
      assert FreeBelow(2) == (if 0 in base then 0 else 1) + (if 1 in base then 0 else 1);
      assert FreeBelow(4) == FreeBelow(2) + (if 2 in base then 0 else 1) + (if 3 in base then 0 else 1);
    }

    lemma NoneBelowSeven()
      requires Numbered()
      ensures D(4) == 4 && D(6) == 6 <==> forall fd: nat :: fd < 7 ==> fd !in base
    {
      IsNumber(4, 4);
      IsNumber(6, 6);
      assert FreeBelow(2) <= 2 && FreeBelow(4) <= FreeBelow(2) + 2 && FreeBelow(6) <= FreeBelow(4) + 2;
      FourBelowFive();
    }

    lemma BackendTrampledIs()
      requires Numbered()
      ensures ProcessSetup.Trampled(BackendChild()) <==> D(4) == 5 || (D(4) == 4 && D(6) == 6)
    {
      AtLeast(4);
      AtLeast(6);
      AtLeast(8);
      AtLeast(10);
      AtLeast(1);
      Increasing(1, 4);
      if D(4) == 5 {
        assert ProcessSetup.Clashes(BackendChild(), 0) && BackendChild()[1] == PD_FD_MAX + 0;
      } else if D(4) == 4 && D(6) == 6 {
        assert ProcessSetup.Clashes(BackendChild(), 1) && BackendChild()[2] == PD_FD_MAX + 1;
      }
    }

    /** For the backend it depends on the daemon's table. */
    lemma BackendTrampledIff()
      requires Numbered()
      ensures ProcessSetup.Trampled(BackendChild()) <==> Tramples()
    {
      BackendTrampledIs();
      IsNumber(4, 5);
      FourBelowFive();
      NoneBelowSeven();
    }

    /** What filter `k` of `n` finds on descriptors 0 to 4: the document or the output of the
        filter before it, a pipe to the filter after it (or to the daemon), a pipe of its own for
        messages, and its ends of the two channels to the backend. */
    lemma FilterGets(n: nat, k: nat)
      requires Numbered() && k < n
      ensures forall i :: 0 <= i < 5 ==> i in FilterTable(n, k)
      ensures FilterTable(n, k)[0] == if k == 0 then Document else Between(n, k - 1, false)
      ensures FilterTable(n, k)[1] == Between(n, k, true)
      ensures FilterTable(n, k)[2] == Pipe(id + 5 + k, true)
      ensures FilterTable(n, k)[3] == Pipe(id + 3, false)
      ensures FilterTable(n, k)[4] == Socket(id + 4, 0)
    {
      FilterSlots(n, k);
      FilterFiles(n, k);
    }

    lemma FilterSlots(n: nat, k: nat)
      requires Numbered() && k < n
      ensures forall i :: 0 <= i < PD_FD_MAX ==>
                i in FilterTable(n, k) && FilterTable(n, k)[i] == FileAt(FilterAt(n, k)[i], id)
    {
      FilterReady(n, k);
      FilterNotTrampled(n, k);
      ProcessSetup.SetupMoves(FilterImage(n, k), FilterChild(n, k), FilterParent(n, k));
      forall i | 0 <= i < PD_FD_MAX
        ensures i in FilterTable(n, k) && FilterTable(n, k)[i] == FileAt(FilterAt(n, k)[i], id)
      {
        FilterEntry(n, k, i);
      }
    }

    lemma FilterFiles(n: nat, k: nat)
      requires Numbered()
      ensures FileAt(FilterAt(n, k)[0], id) == if k == 0 then Document else Between(n, k - 1, false)
      ensures FileAt(FilterAt(n, k)[1], id) == Between(n, k, true)
      ensures FileAt(FilterAt(n, k)[2], id) == Pipe(id + 5 + k, true)
      ensures FileAt(FilterAt(n, k)[PD_FD_BACK], id) == Pipe(id + 3, false)
      ensures FileAt(FilterAt(n, k)[PD_FD_SIDE], id) == Socket(id + 4, 0)
    {
      if k > 0 {
        PairFiles(4 + n + k, id);
      }
      PairFiles(5 + n + k, id);
      PairFiles(5 + k, id);
    }

    ghost function FilterTable(n: nat, k: nat): Table {
      ProcessSetup.Setup(FilterImage(n, k), FilterChild(n, k), FilterParent(n, k))
    }

    /** The pipe behind filter `k`. */
    ghost function Between(n: nat, k: nat, writing: bool): OpenFile {
      Pipe(id + 5 + n + k, writing)
    }

    ghost function BackendTable(n: nat): Table {
      ProcessSetup.Setup(BackendImage(n), BackendChild(), BackendParent())
    }

    lemma BackendGets(n: nat)
      requires Numbered() && 0 < n && !Tramples()
      ensures forall i :: 0 <= i < 5 ==> i in BackendTable(n)
      ensures BackendTable(n)[0] == Pipe(id, false) && BackendTable(n)[1] == Pipe(id + 1, true)
      ensures BackendTable(n)[2] == Pipe(id + 2, true)
      ensures BackendTable(n)[3] == Pipe(id + 3, true) && BackendTable(n)[4] == Socket(id + 4, 1)
    {
      BackendSlots(n);
    }

    /** The pipes and the socket pair are new to the daemon. */
    ghost predicate NewFiles() {
      forall fd, i: nat :: fd in base && 0 < i ==> base[fd] != FileAt(i, id)
    }

    lemma SameFile(n: nat, fd: int, at: nat)
      requires Numbered() && NewFiles() && 0 < at < Total(n)
      requires fd in BackendImage(n) && BackendImage(n)[fd] == FileAt(at, id)
      ensures fd == D(at)
    {
      NothingElse(base, id, Total(n), fd);
      if fd in base {
        BaseKept(base, id, Total(n), fd);
      } else {
        var i: nat :| i < Total(n) && fd == Fd(base, id, i);
        FdKept(base, id, i, Total(n));
        assert Singled(at);
      }
    }

    lemma BackendUnshared(n: nat)
      requires Numbered() && NewFiles()
      ensures ProcessSetup.Unshared(BackendImage(n), BackendChild())
    {
      BackendOpen(n);
      forall k, fd | 0 <= k < PD_FD_MAX && fd in BackendImage(n) && BackendImage(n)[fd] == BackendImage(n)[BackendChild()[k]]
        ensures fd == BackendChild()[k]
      {
        SameFile(n, fd, BackendAt()[k]);
      }
    }

    /** Every slot of the backend gets its file exactly when the daemon's table is none of
        those. */
    lemma BackendGetsIff(n: nat)
      requires Numbered() && 0 < n && NewFiles()
      ensures (forall i :: 0 <= i < PD_FD_MAX ==>
                 i in BackendTable(n) && BackendTable(n)[i] == FileAt(BackendAt()[i], id))
         <==> !Tramples()
    {
      BackendReady(n);
      BackendUnshared(n);
      BackendOpen(n);
      BackendTrampledIff();
      ProcessSetup.SetupWorksIffNotTrampled(BackendImage(n), BackendChild(), BackendParent());
    }

    lemma BackendSlots(n: nat)
      requires Numbered() && 0 < n && !Tramples()
      ensures forall i :: 0 <= i < PD_FD_MAX ==>
                i in BackendTable(n) && BackendTable(n)[i] == FileAt(BackendAt()[i], id)
    {
      BackendReady(n);
      BackendTrampledIff();
      ProcessSetup.SetupMoves(BackendImage(n), BackendChild(), BackendParent());
      BackendOpen(n);
    }

    /** The daemon holds the writing end of the backend's stdin and the reading ends of its output
        and messages. */
    lemma DaemonHoldsBackendEnds(n: nat)
      requires Numbered() && 0 < n
      ensures BackendParent()[0] in Left(n) && Left(n)[BackendParent()[0]] == Pipe(id, true)
      ensures BackendParent()[1] in Left(n) && Left(n)[BackendParent()[1]] == Pipe(id + 1, false)
      ensures BackendParent()[2] in Left(n) && Left(n)[BackendParent()[2]] == Pipe(id + 2, false)
    {
      DaemonEndFile(n, 2);
      DaemonEndFile(n, 3);
      DaemonEndFile(n, 5);
    }

    /** It holds the reading end of every filter's messages. */
    lemma DaemonHoldsMessageEnds(n: nat, k: nat)
      requires Numbered() && k < n
      ensures FilterParent(n, k)[2] in Left(n) && Left(n)[FilterParent(n, k)[2]] == Pipe(id + 5 + k, false)
    {
      DaemonEndFile(n, 11 + 2 * k);
      PairFiles(5 + k, id);
    }

    /** It holds the reading end of the last filter's output, and of no other filter's. */
    lemma DaemonHoldsOutputEnd(n: nat, k: nat)
      requires Numbered() && k < n
      ensures k < n - 1 ==> FilterParent(n, k)[1] == -1
      ensures k == n - 1 ==> FilterParent(n, k)[1] in Left(n)
      ensures k == n - 1 ==> Left(n)[FilterParent(n, k)[1]] == Between(n, k, false)
    {
      OutputEndIs(n, k);
      OutputEndHeld(n);
    }

    lemma OutputEndIs(n: nat, k: nat)
      requires Numbered()
      ensures FilterParent(n, k)[1] == if k == n - 1 then D(4 * n + 9) else -1
    {
    }

    lemma OutputEndHeld(n: nat)
      requires Numbered() && 0 < n
      ensures D(4 * n + 9) in Left(n) && Left(n)[D(4 * n + 9)] == Between(n, n - 1, false)
    {
      PairFiles(4 + 2 * n, id);
      DaemonEndFile(n, 4 * n + 9);
    }

    /** The daemon's table once everything runs. */
    ghost function Left(n: nat): Table {
      Less(n, AllGone(n))
    }

    // The whole of it

    /** The descriptors of the chain, as its processes were spawned with them. */
    ghost predicate Wired(n: nat)
      reads this, filters, backend
    {
      && |filters| == n
      && (forall k :: 0 <= k < n ==> filters[k].childFd == FilterChild(n, k))
      && (forall k :: 0 <= k < n ==> filters[k].parentFd == FilterParent(n, k))
      && backend.childFd == BackendChild() && backend.parentFd == BackendParent()
    }

    method Prepare(n: nat)
      requires Numbered() && 0 < n && filters == [] && sys.table == base && sys.created == id
      requires backend.childFd == UNSET && backend.parentFd == UNSET
      modifies sys, this`filters, this`fdBack, this`fdSide, backend`childFd, backend`parentFd
      ensures Connected(n, {})
    {
      var documentFd := OpenDocument();
      AppendFilters(n);
      Connect(documentFd);
    }

    /** pd_job_impl_start_processing with a chain of `n` filters. */
    method StartProcessing(n: nat) returns (ok: bool)
      requires Numbered() && 0 < n && filters == [] && sys.table == base && sys.created == id && spawned == []
      requires backend.childFd == UNSET && backend.parentFd == UNSET
      modifies sys, this`filters, this`spawned, this`fdBack, this`fdSide, backend`childFd, backend`parentFd
      ensures ok && Wired(n) && spawned == FilterImages(n, n) && sys.table == BackendImage(n)
      ensures fdBack == (-1, D(8)) && fdSide == (-1, D(10))
    {
      Prepare(n);
      ok := RunConnected(n);
    }

    method RunConnected(ghost n: nat) returns (ok: bool)
      requires Numbered() && Connected(n, {}) && spawned == []
      modifies sys`table, this`spawned, this`fdBack, this`fdSide
      ensures ok && spawned == FilterImages(n, n) && sys.table == BackendImage(n)
      ensures fdBack == (-1, D(8)) && fdSide == (-1, D(10))
    {
      FilterImageIs(n, 0);
      var ran := RunFilters();
      var closed := CloseFilterSides(n);
      ok := ran && closed;
    }

    /** pd_job_impl_start_sending for a job whose chain has not been started: every close
        succeeds, the processes are spawned with the tables described above, the backend last, and
        the daemon is left with what it had and the n + 4 ends it needs (WhatIsLeft). */
    method StartSending(n: nat) returns (ok: bool)
      requires Numbered() && 0 < n && filters == [] && sys.table == base && sys.created == id && spawned == []
      requires backend.childFd == UNSET && backend.parentFd == UNSET
      modifies sys, this`filters, this`spawned, this`fdBack, this`fdSide, backend`childFd, backend`parentFd
      ensures ok && Wired(n) && spawned == FilterImages(n, n) + [BackendImage(n)] && sys.table == Left(n)
    {
      var started := StartProcessing(n);
      var sent := Send(n);
      ok := started && sent;
    }
  }
}
