/** File descriptors of a process: a map from numbers to open files, and the system calls that
    printerd makes on it. */
module Descriptors {

  /** What a descriptor can refer to. A pipe has a reading and a writing end, a socket pair two
      sides; pipes and pairs are told apart by the number they were created under. */
  datatype OpenFile =
    | Document
    | Pipe(id: nat, writing: bool)
    | Socket(id: nat, side: nat)
    | Other(id: nat)

  type Table = map<int, OpenFile>

  const PD_FD_BACK := 3
  const PD_FD_SIDE := 4
  const PD_FD_MAX := 5

  function Closed(t: Table, fd: int): Table {
    t - {fd}
  }

  /** dup2; it fails and changes nothing when `from` is not open. */
  function Dup2(t: Table, from: int, to: int): Table {
    if from in t then t[to := t[from]] else t
  }

  /** The open descriptors from `from` upwards. */
  function OpenFrom(t: Table, from: nat): set<int> {
    set fd | fd in t && from <= fd
  }

  lemma OneFewer(t: Table, from: nat)
    requires from in t
    ensures OpenFrom(t, from + 1) < OpenFrom(t, from)
  {
    assert from in OpenFrom(t, from) && from !in OpenFrom(t, from + 1);
  }

  /** The lowest unused descriptor number from `from` upwards. */
  function LowestFree(t: Table, from: nat): (fd: nat)
    ensures fd !in t && from <= fd
    ensures forall k :: from <= k < fd ==> k in t
    decreases OpenFrom(t, from)
  {
    if from in t then
      OneFewer(t, from);
      LowestFree(t, from + 1)
    else from
  }

  function WithLowest(t: Table, f: OpenFile): Table {
    t[LowestFree(t, 0) := f]
  }

  /** One process's descriptor table. `created` numbers pipes and socket pairs. */
  class Process {
    var table: Table
    var created: nat

    constructor (t: Table, n: nat)
      ensures table == t && created == n
    {
      table, created := t, n;
    }

    /** close: true unless the descriptor was not open. */
    method Close(fd: int) returns (ok: bool)
      modifies this`table
      ensures ok == (fd in old(table))
      ensures table == Closed(old(table), fd)
    {
      ok := fd in table;
      table := table - {fd};
    }

    method Duplicate(from: int, to: int) returns (ok: bool)
      modifies this`table
      ensures ok == (from in old(table))
      ensures table == Dup2(old(table), from, to)
    {
      ok := from in table;
      if ok {
        table := table[to := table[from]];
      }
    }

    /** open, pipe and socketpair give out the lowest numbers that are not in use. */
    method Open(f: OpenFile) returns (fd: int)
      modifies this`table
      ensures fd == LowestFree(old(table), 0)
      ensures table == old(table)[fd := f]
    {
      fd := LowestFree(table, 0);
      table := table[fd := f];
    }

    method MakePipe() returns (ends: (int, int))
      modifies this`table, this`created
      ensures created == old(created) + 1
      ensures ends == (LowestFree(old(table), 0), LowestFree(WithLowest(old(table), Pipe(old(created), false)), 0))
      ensures table == WithLowest(WithLowest(old(table), Pipe(old(created), false)), Pipe(old(created), true))
    {
      var reading := Open(Pipe(created, false));
      var writing := Open(Pipe(created, true));
      created := created + 1;
      ends := (reading, writing);
    }

    method MakeSocketPair() returns (sides: (int, int))
      modifies this`table, this`created
      ensures created == old(created) + 1
      ensures sides == (LowestFree(old(table), 0), LowestFree(WithLowest(old(table), Socket(old(created), 0)), 0))
      ensures table == WithLowest(WithLowest(old(table), Socket(old(created), 0)), Socket(old(created), 1))
    {
      var a := Open(Socket(created, 0));
      var b := Open(Socket(created, 1));
      created := created + 1;
      sides := (a, b);
    }
  }
}
