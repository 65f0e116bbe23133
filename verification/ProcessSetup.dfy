/** What a child does between fork and exec (pd_job_impl_process_setup): a parallel move of its
    five descriptors onto 0..4. */
module ProcessSetup {
  import opened Descriptors

  // The three loops, one iteration at a time

  function CloseParents(t: Table, parent: seq<int>, i: nat): Table
    requires i <= |parent|
  {
    if i == 0 then t
    else
      var u := CloseParents(t, parent, i - 1);
      if parent[i - 1] != -1 then Closed(u, parent[i - 1]) else u
  }

  /** Entry `k` stands on a slot that belongs to another entry. */
  predicate Clashes(child: seq<int>, k: nat)
    requires k < |child|
  {
    child[k] < PD_FD_MAX && child[k] != k
  }

  function MoveAway(u: Table, c: seq<int>, k: nat): (Table, seq<int>)
    requires k < |c|
  {
    if Clashes(c, k) then (Closed(Dup2(u, c[k], PD_FD_MAX + k), c[k]), c[k := PD_FD_MAX + k]) else (u, c)
  }

  function MovedAway(t: Table, child: seq<int>, i: nat): (r: (Table, seq<int>))
    requires i <= |child|
    ensures |r.1| == |child|
  {
    if i == 0 then (t, child)
    else
      var (u, c) := MovedAway(t, child, i - 1);
      MoveAway(u, c, i - 1)
  }

  function MoveIn(u: Table, c: seq<int>, k: nat): Table
    requires k < |c|
  {
    if c[k] != -1 && c[k] != k then Closed(Dup2(u, c[k], k), c[k]) else u
  }

  function MovedIn(u: Table, c: seq<int>, i: nat): Table
    requires i <= |c|
  {
    if i == 0 then u else MoveIn(MovedIn(u, c, i - 1), c, i - 1)
  }

  /** The child's descriptors when it goes on to exec. */
  function Setup(t: Table, child: seq<int>, parent: seq<int>): Table
    requires |child| == |parent| == PD_FD_MAX
  {
    var (u, c) := MovedAway(CloseParents(t, parent, PD_FD_MAX), child, PD_FD_MAX);
    MovedIn(u, c, PD_FD_MAX)
  }

  // When it works

  /** All five entries are set, open and different, and none is an end kept by the parent. */
  ghost predicate Ready(t: Table, child: seq<int>, parent: seq<int>) {
    && |child| == |parent| == PD_FD_MAX
    && (forall k :: 0 <= k < PD_FD_MAX ==> 0 <= child[k] && child[k] in t && child[k] !in parent)
    && (forall j, k :: 0 <= j < k < PD_FD_MAX ==> child[j] != child[k])
  }

  /** Some entry is where another one is to be moved out of the way. */
  ghost predicate Trampled(child: seq<int>)
    requires |child| == PD_FD_MAX
  {
    exists i, j :: 0 <= i < PD_FD_MAX && 0 <= j < PD_FD_MAX && Clashes(child, i) && child[j] == PD_FD_MAX + i
  }

  lemma {:induction false} ParentsClosed(t: Table, parent: seq<int>, i: nat)
    requires i <= |parent|
    ensures CloseParents(t, parent, i) == t - (set k | 0 <= k < i && parent[k] != -1 :: parent[k])
  {
    if i > 0 {
      ParentsClosed(t, parent, i - 1);
    }
  }

  /** Descriptors used to move entries below `i` out of the way. */
  ghost predicate Spare(child: seq<int>, i: nat, fd: int)
    requires i <= |child|
  {
    exists k :: 0 <= k < i && Clashes(child, k) && fd == PD_FD_MAX + k
  }

  /** Where entry `k` is after `i` iterations of the second loop. */
  function Now(child: seq<int>, i: nat, k: nat): int
    requires k < |child|
  {
    if k < i && Clashes(child, k) then PD_FD_MAX + k else child[k]
  }

  ghost predicate Entries(child: seq<int>, i: nat, c: seq<int>)
    requires |child| == PD_FD_MAX
  {
    |c| == PD_FD_MAX && forall k :: 0 <= k < PD_FD_MAX ==> c[k] == Now(child, i, k)
  }

  /** Every entry refers to its original file, wherever it is. */
  ghost predicate Kept(t: Table, child: seq<int>, u: Table, c: seq<int>)
    requires |child| == PD_FD_MAX
  {
    |c| == PD_FD_MAX && forall k :: 0 <= k < PD_FD_MAX ==> child[k] in t && c[k] in u && u[c[k]] == t[child[k]]
  }

  /** Descriptor `fd`, not an entry now, is as it was unless it was an entry or a spare. */
  ghost predicate Rest(t: Table, child: seq<int>, i: nat, u: Table, fd: int)
    requires |child| == PD_FD_MAX && i <= PD_FD_MAX
  {
    && (fd in u <==> fd in t && fd !in child && !Spare(child, i, fd))
    && (fd in u ==> fd in t && u[fd] == t[fd])
  }

  /** The state after `i` iterations of the second loop. */
  ghost predicate Away(t: Table, child: seq<int>, i: nat, u: Table, c: seq<int>)
    requires |child| == PD_FD_MAX && i <= PD_FD_MAX
  {
    && Entries(child, i, c)
    && Kept(t, child, u, c)
    && (forall fd :: fd !in c ==> Rest(t, child, i, u, fd))
  }

  lemma EntriesStep(child: seq<int>, i: nat, u: Table, c: seq<int>)
    requires |child| == PD_FD_MAX && i < PD_FD_MAX && Entries(child, i, c)
    ensures Entries(child, i + 1, MoveAway(u, c, i).1)
    ensures Clashes(c, i) <==> Clashes(child, i)
  {
  }

  /** Different entries stay different, and none is on the spare about to be used. */
  lemma EntriesDiffer(child: seq<int>, i: nat, c: seq<int>)
    requires |child| == PD_FD_MAX && i <= PD_FD_MAX && Entries(child, i, c)
    requires forall j, k :: 0 <= j < k < PD_FD_MAX ==> child[j] != child[k]
    requires !Trampled(child)
    ensures forall j, k :: 0 <= j < PD_FD_MAX && 0 <= k < PD_FD_MAX && j != k ==> c[j] != c[k]
    ensures forall k :: 0 <= k < PD_FD_MAX && i < PD_FD_MAX && Clashes(child, i) ==> c[k] != PD_FD_MAX + i
  {
  }

  lemma KeptStep(t: Table, child: seq<int>, i: nat, u: Table, c: seq<int>)
    requires |child| == PD_FD_MAX && i < PD_FD_MAX && Kept(t, child, u, c)
    requires forall j, k :: 0 <= j < PD_FD_MAX && 0 <= k < PD_FD_MAX && j != k ==> c[j] != c[k]
    requires Clashes(c, i) ==> forall k :: 0 <= k < PD_FD_MAX ==> c[k] != PD_FD_MAX + i
    ensures Kept(t, child, MoveAway(u, c, i).0, MoveAway(u, c, i).1)
  {
  }

  lemma RestStep(t: Table, child: seq<int>, i: nat, u: Table, c: seq<int>, fd: int)
    requires |child| == PD_FD_MAX && i < PD_FD_MAX && Away(t, child, i, u, c)
    requires fd !in MoveAway(u, c, i).1
    ensures Rest(t, child, i + 1, MoveAway(u, c, i).0, fd)
  {
    var (v, d) := MoveAway(u, c, i);
    assert c[i] == Now(child, i, i) == child[i];
    assert Spare(child, i + 1, fd) <==> Spare(child, i, fd) || (Clashes(child, i) && fd == PD_FD_MAX + i);
    if Clashes(child, i) {
      assert d == c[i := PD_FD_MAX + i] && d[i] == PD_FD_MAX + i;
      if fd in c {
        var k :| 0 <= k < PD_FD_MAX && c[k] == fd;
        assert d[k] == if k == i then PD_FD_MAX + i else fd;
        assert fd == child[i] && fd !in v;
      } else {
        assert Rest(t, child, i, u, fd);
      }
    } else {
      assert d == c && v == u && Rest(t, child, i, u, fd);
    }
  }

  lemma AwayStep(t: Table, child: seq<int>, parent: seq<int>, i: nat, u: Table, c: seq<int>)
    requires Ready(t, child, parent) && !Trampled(child) && i < PD_FD_MAX
    requires Away(t, child, i, u, c)
    ensures Away(t, child, i + 1, MoveAway(u, c, i).0, MoveAway(u, c, i).1)
  {
    var (v, d) := MoveAway(u, c, i);
    EntriesDiffer(child, i, c);
    EntriesStep(child, i, u, c);
    KeptStep(t, child, i, u, c);
    forall fd | fd !in d ensures Rest(t, child, i + 1, v, fd) {
      RestStep(t, child, i, u, c, fd);
    }
  }

  lemma {:induction false} AwayAfter(t: Table, child: seq<int>, parent: seq<int>, i: nat)
    requires Ready(t, child, parent) && !Trampled(child) && i <= PD_FD_MAX
    ensures Away(t, child, i, MovedAway(t, child, i).0, MovedAway(t, child, i).1)
  {
    if i == 0 {
      forall fd | fd !in child ensures Rest(t, child, 0, t, fd) {
      }
    } else {
      AwayAfter(t, child, parent, i - 1);
      var (u, c) := MovedAway(t, child, i - 1);
      AwayStep(t, child, parent, i - 1, u, c);
    }
  }

  // The third loop

  /** Entries that have stopped clashing: different, and each slot taken by its own entry only. */
  ghost predicate Settled(c: seq<int>) {
    && |c| == PD_FD_MAX
    && (forall k :: 0 <= k < PD_FD_MAX ==> c[k] == k || PD_FD_MAX <= c[k])
    && (forall j, k :: 0 <= j < k < PD_FD_MAX ==> c[j] != c[k])
  }

  /** `fd` is neither a filled slot nor an entry still to be moved. */
  ghost predicate Outside(c: seq<int>, i: nat, fd: int)
    requires |c| == PD_FD_MAX
  {
    !(0 <= fd < i) && forall k :: i <= k < PD_FD_MAX ==> c[k] != fd
  }

  ghost predicate Kin(u: Table, c: seq<int>, v: Table, fd: int) {
    && (fd in v <==> fd in u && fd !in c)
    && (fd in v ==> fd in u && v[fd] == u[fd])
  }

  /** The state after `i` iterations: slots below `i` are filled, entries above are in place. */
  ghost predicate Filled(u: Table, c: seq<int>, i: nat, v: Table)
    requires |c| == PD_FD_MAX && i <= PD_FD_MAX
  {
    && (forall k :: 0 <= k < PD_FD_MAX ==> c[k] in u)
    && (forall k :: 0 <= k < i ==> k in v && v[k] == u[c[k]])
    && (forall k :: i <= k < PD_FD_MAX ==> c[k] in v && v[c[k]] == u[c[k]])
    && (forall fd :: Outside(c, i, fd) ==> Kin(u, c, v, fd))
  }

  lemma SlotsStep(u: Table, c: seq<int>, i: nat, v: Table)
    requires Settled(c) && i < PD_FD_MAX && Filled(u, c, i, v)
    ensures forall k :: 0 <= k < i + 1 ==> k in MoveIn(v, c, i) && MoveIn(v, c, i)[k] == u[c[k]]
    ensures forall k :: i + 1 <= k < PD_FD_MAX ==> c[k] in MoveIn(v, c, i) && MoveIn(v, c, i)[c[k]] == u[c[k]]
  {
  }

  lemma OutsideStep(u: Table, c: seq<int>, i: nat, v: Table, fd: int)
    requires Settled(c) && i < PD_FD_MAX && Filled(u, c, i, v)
    requires Outside(c, i + 1, fd)
    ensures Kin(u, c, MoveIn(v, c, i), fd)
  {
    if c[i] == fd {
      assert fd in c && fd !in MoveIn(v, c, i);
    } else {
      assert Outside(c, i, fd);
    }
  }

  lemma FilledStep(u: Table, c: seq<int>, i: nat, v: Table)
    requires Settled(c) && i < PD_FD_MAX && Filled(u, c, i, v)
    ensures Filled(u, c, i + 1, MoveIn(v, c, i))
  {
    SlotsStep(u, c, i, v);
    forall fd | Outside(c, i + 1, fd) ensures Kin(u, c, MoveIn(v, c, i), fd) {
      OutsideStep(u, c, i, v, fd);
    }
  }

  lemma {:induction false} FilledAfter(u: Table, c: seq<int>, i: nat)
    requires Settled(c) && i <= PD_FD_MAX
    requires forall k :: 0 <= k < PD_FD_MAX ==> c[k] in u
    ensures Filled(u, c, i, MovedIn(u, c, i))
  {
    if i == 0 {
      forall fd | Outside(c, 0, fd) ensures Kin(u, c, u, fd) {
        assert fd !in c;
      }
    } else {
      FilledAfter(u, c, i - 1);
      FilledStep(u, c, i - 1, MovedIn(u, c, i - 1));
    }
  }

  // The result

  ghost predicate IsParentEnd(parent: seq<int>, fd: int) {
    fd in parent && fd != -1
  }

  /** The parallel move: every slot gets its own file whatever order the entries are in, and no
      other descriptor is left but those that had nothing to do with it. */
  lemma SetupMoves(t: Table, child: seq<int>, parent: seq<int>)
    requires Ready(t, child, parent) && !Trampled(child)
    ensures forall i :: 0 <= i < PD_FD_MAX ==>
              child[i] in t && i in Setup(t, child, parent) && Setup(t, child, parent)[i] == t[child[i]]
    ensures forall fd :: !(0 <= fd < PD_FD_MAX) ==>
              (fd in Setup(t, child, parent) <==>
                 fd in t && fd !in child && !IsParentEnd(parent, fd) && !Spare(child, PD_FD_MAX, fd))
    ensures forall fd :: !(0 <= fd < PD_FD_MAX) && fd in Setup(t, child, parent) ==>
              fd in t && Setup(t, child, parent)[fd] == t[fd]
  {
    ParentsClosed(t, parent, PD_FD_MAX);
    var s := CloseParents(t, parent, PD_FD_MAX);
    assert Ready(s, child, parent);
    AwayAfter(s, child, parent, PD_FD_MAX);
    var (u, c) := MovedAway(s, child, PD_FD_MAX);
    EntriesDiffer(child, PD_FD_MAX, c);
    assert Settled(c);
    FilledAfter(u, c, PD_FD_MAX);
    forall fd | !(0 <= fd < PD_FD_MAX)
      ensures fd in MovedIn(u, c, PD_FD_MAX) <==> fd in u && fd !in c
      ensures fd in MovedIn(u, c, PD_FD_MAX) ==> fd in u && MovedIn(u, c, PD_FD_MAX)[fd] == u[fd]
      ensures fd in u && fd !in c <==>
                fd in t && fd !in child && !IsParentEnd(parent, fd) && !Spare(child, PD_FD_MAX, fd)
    {
      assert Outside(c, PD_FD_MAX, fd);
      assert Kin(u, c, MovedIn(u, c, PD_FD_MAX), fd);
      if fd in c {
        var k :| 0 <= k < PD_FD_MAX && c[k] == fd;
        assert fd in child || Spare(child, PD_FD_MAX, fd);
      } else {
        assert Rest(s, child, PD_FD_MAX, u, fd);
      }
    }
  }

  // When it does not

  ghost predicate Absent(t: Table, f: OpenFile) {
    forall fd :: fd in t ==> t[fd] != f
  }

  /** The only descriptor of each child file is the entry itself. */
  ghost predicate Unshared(t: Table, child: seq<int>) {
    forall k, fd :: 0 <= k < |child| && child[k] in t && fd in t && t[fd] == t[child[k]] ==> fd == child[k]
  }

  /** Before entry `i` is moved out of the way, nothing has copied the file under its spare. */
  lemma {:induction false} BeforeTrampling(s: Table, child: seq<int>, i: nat, f: OpenFile, m: nat)
    requires |child| == PD_FD_MAX && m <= i < PD_FD_MAX && Clashes(child, i) && child[i] in s
    requires forall j, k :: 0 <= j < k < PD_FD_MAX ==> child[j] != child[k]
    requires forall fd :: fd in s && s[fd] == f ==> fd == PD_FD_MAX + i
    ensures var (u, c) := MovedAway(s, child, m);
            && (forall k :: m <= k < PD_FD_MAX ==> c[k] == child[k])
            && child[i] in u
            && (forall fd :: fd in u && u[fd] == f ==> fd == PD_FD_MAX + i)
  {
    if m > 0 {
      BeforeTrampling(s, child, i, f, m - 1);
    }
  }

  lemma {:induction false} StaysAbsentAway(s: Table, child: seq<int>, f: OpenFile, i: nat, m: nat)
    requires i <= m <= |child| && Absent(MovedAway(s, child, i).0, f)
    ensures Absent(MovedAway(s, child, m).0, f)
    decreases m
  {
    if m > i {
      StaysAbsentAway(s, child, f, i, m - 1);
    }
  }

  lemma {:induction false} StaysAbsentIn(u: Table, c: seq<int>, f: OpenFile, m: nat)
    requires m <= |c| && Absent(u, f)
    ensures Absent(MovedIn(u, c, m), f)
  {
    if m > 0 {
      StaysAbsentIn(u, c, f, m - 1);
    }
  }

  lemma TrampledFileIsLost(t: Table, child: seq<int>, parent: seq<int>, i: nat, j: nat)
    requires Ready(t, child, parent) && Unshared(t, child)
    requires i < PD_FD_MAX && j < PD_FD_MAX && Clashes(child, i) && child[j] == PD_FD_MAX + i
    ensures Absent(Setup(t, child, parent), t[child[j]])
  {
    ParentsClosed(t, parent, PD_FD_MAX);
    var s := CloseParents(t, parent, PD_FD_MAX);
    var f := t[child[j]];
    BeforeTrampling(s, child, i, f, i);
    assert Absent(MovedAway(s, child, i + 1).0, f);
    StaysAbsentAway(s, child, f, i + 1, PD_FD_MAX);
    var (u, c) := MovedAway(s, child, PD_FD_MAX);
    StaysAbsentIn(u, c, f, PD_FD_MAX);
  }

  /** The move gives every slot its file exactly when no entry is on the spare of a clashing
      one: a descriptor 5 + i, with entry i below 5 and not in place, loses its file. */
  lemma SetupWorksIffNotTrampled(t: Table, child: seq<int>, parent: seq<int>)
    requires Ready(t, child, parent) && Unshared(t, child)
    ensures (forall i :: 0 <= i < PD_FD_MAX ==>
               i in Setup(t, child, parent) && child[i] in t && Setup(t, child, parent)[i] == t[child[i]])
       <==> !Trampled(child)
  {
    if Trampled(child) {
      var i, j :| 0 <= i < PD_FD_MAX && 0 <= j < PD_FD_MAX && Clashes(child, i) && child[j] == PD_FD_MAX + i;
      TrampledFileIsLost(t, child, parent, i, j);
      assert j in Setup(t, child, parent) ==> Setup(t, child, parent)[j] != t[child[j]];
    } else {
      SetupMoves(t, child, parent);
    }
  }
}
