/** The launcher and the program close what they inherited: the first pass
    keeps an unsorted list, the second is the cheap one in front of execve. */
module Descriptors {

  const STDERR_FILENO := 2
  const STATUS_FD := 3

  /** The descriptor table of one process. */
  class Table {
    var open: set<int>

    constructor (open: set<int>)
      ensures this.open == open
    {
      this.open := open;
    }

    method Close(fd: int)
      modifies this
      ensures open == old(open) - {fd}
    {
      open := open - {fd};
    }

    /** The close_range call, where there is one: `last` may be unbounded. */
    method CloseRange(first: int, last: int, unbounded: bool) returns (succeeded: bool)
      modifies this
      ensures !succeeded ==> open == old(open)
      ensures succeeded ==> open == set fd | fd in old(open) && !(first <= fd && (unbounded || fd <= last))
    {
      if * {
        return false;
      }
      open := set fd | fd in open && !(first <= fd && (unbounded || fd <= last));
      return true;
    }
  }

  /** What is left when [3, limit) is cleared outside `keep`; `swept` says that the
      numbers from `limit` on are gone as well. */
  function Remaining(open: set<int>, keep: set<int>, limit: int, swept: bool): set<int> {
    set fd | fd in open && (fd <= STDERR_FILENO || (fd < limit && fd in keep) || (fd >= limit && !swept))
  }

  function Elements(keep: seq<int>): set<int> {
    set fd | fd in keep
  }

  /** Closes [first, last], and everything above when the range is the last
      one and the kernel can do it in one call. */
  method CloseFdRange(table: Table, first: int, last: int, isLast: bool) returns (ghost swept: bool)
    modifies table
    ensures swept ==> isLast && first <= last
    ensures table.open == set fd | fd in old(table.open) && !(first <= fd <= last) && !(swept && fd > last)
  {
    if first > last {
      return false;
    }
    var succeeded := table.CloseRange(first, last, isLast);
    if succeeded {
      return isLast;
    }
    for fd := first to last + 1
      invariant table.open == set n | n in old(table.open) && !(first <= n < fd)
    {
      table.Close(fd);
    }
    return false;
  }

  /** The smallest kept number in [first, limit), or limit. */
  method NextKept(keep: seq<int>, first: int, limit: int) returns (next: int)
    ensures next == limit || (first <= next < limit && next in keep)
    ensures forall fd | fd in keep :: first <= fd < limit ==> next <= fd
  {
    next := limit;
    for index := 0 to |keep|
      invariant next == limit || (first <= next < limit && next in keep)
      invariant forall i | 0 <= i < index :: first <= keep[i] < limit ==> next <= keep[i]
    {
      if keep[index] >= first && keep[index] < next {
        next := keep[index];
      }
    }
  }

  /** Leaves exactly the kept numbers of [3, limit), in whatever order and
      however often `keep` names them; 0 to 2 are never touched. */
  method CloseFdsExcept(table: Table, keep: seq<int>, limit: int) returns (ghost swept: bool)
    modifies table
    ensures table.open == Remaining(old(table.open), Elements(keep), limit, swept)
  {
    var first := STDERR_FILENO + 1;
    while true
      invariant STDERR_FILENO < first && (first <= limit || first == STDERR_FILENO + 1)
      invariant table.open
             == set fd | fd in old(table.open) && (fd <= STDERR_FILENO || fd >= first || fd in Elements(keep))
      decreases limit - first
    {
      var next := NextKept(keep, first, limit);
      swept := CloseFdRange(table, first, next - 1, next == limit);
      if next == limit {
        return;
      }
      first := next + 1;
    }
  }

  /** The listing variant: closes what the listed numbers name. A complete
      listing covers every open descriptor. */
  method CloseListedFdsExcept(table: Table, listed: seq<int>, complete: bool, keep: seq<int>) returns (done: bool)
    requires complete ==> table.open <= Elements(listed)
    modifies table
    ensures done == complete
    ensures !done ==> table.open == old(table.open)
    ensures done ==> table.open == set fd | fd in old(table.open) && (fd <= STDERR_FILENO || fd in Elements(keep))
  {
    if !complete {
      return false;
    }
    for index := 0 to |listed|
      invariant table.open == set fd | fd in old(table.open)
                                       && (fd <= STDERR_FILENO || fd in Elements(keep) || fd !in listed[..index])
    {
      var fd := listed[index];
      assert listed[..index + 1] == listed[..index] + [fd];
      if fd <= STDERR_FILENO {
        continue;
      }
      var kept := false;
      for keepIndex := 0 to |keep|
        invariant kept <==> fd in keep[..keepIndex]
      {
        assert keep[..keepIndex + 1] == keep[..keepIndex] + [keep[keepIndex]];
        if keep[keepIndex] == fd {
          kept := true;
        }
      }
      assert keep[..|keep|] == keep;
      if !kept {
        table.Close(fd);
      }
    }
    assert listed[..|listed|] == listed;
    return true;
  }

  /** The program's pass: everything from 3 to `limit` but the status pipe.
      With close_range it goes beyond `limit`. */
  method CloseExtraFds(table: Table, statusFd: int, limit: int) returns (ghost swept: bool)
    requires statusFd >= STATUS_FD
    modifies table
    ensures swept ==> statusFd == STATUS_FD
    ensures table.open == AfterExtra(old(table.open), statusFd, limit, swept)
  {
    if statusFd == STATUS_FD {
      var succeeded := table.CloseRange(STATUS_FD + 1, 0, true);
      if succeeded {
        return true;
      }
    }
    for fd := STATUS_FD to (if limit < STATUS_FD then STATUS_FD else limit)
      invariant table.open == set n | n in old(table.open) && !(STATUS_FD <= n < fd && n != statusFd)
    {
      if fd == statusFd {
        continue;
      }
      table.Close(fd);
    }
    return false;
  }

  function AfterExtra(open: set<int>, statusFd: int, limit: int, swept: bool): set<int> {
    set fd | fd in open && (fd < STATUS_FD || fd == statusFd || (fd >= limit && !swept))
  }

  /** One past the largest kept number; at least 0. */
  method ProgramFdLimit(keep: seq<int>) returns (limit: int)
    ensures limit >= 0
    ensures forall fd | fd in keep :: fd < limit
    ensures limit == 0 || limit - 1 in keep
  {
    limit := 0;
    for index := 0 to |keep|
      invariant limit >= 0
      invariant forall i | 0 <= i < index :: keep[i] < limit
      invariant limit == 0 || limit - 1 in keep
    {
      if keep[index] >= limit {
        limit := keep[index] + 1;
      }
    }
  }

  /** The launcher's part, then the program's: standard streams are the slave,
      the slave itself is closed unless it is one of them or the status pipe,
      and the second pass goes only up to the program's limit. */
  method CloseInherited(table: Table, listed: seq<int>, complete: bool, keep: seq<int>,
                        statusFd: int, slave: int, limit: int)
    returns (programLimit: int)
    requires complete ==> table.open <= Elements(listed)
    requires statusFd >= STATUS_FD && statusFd in keep && slave in keep
    requires forall fd | fd in table.open :: fd < limit
    requires forall fd | fd in keep :: fd < limit
    modifies table
    ensures table.open == ProgramDescriptors(old(table.open), statusFd)
  {
    var done := CloseListedFdsExcept(table, listed, complete, keep);
    ghost var swept := false;
    if !done {
      swept := CloseFdsExcept(table, keep, limit);
    }
    assert table.open == Remaining(old(table.open), Elements(keep), limit, swept);
    programLimit := ProgramFdLimit(keep);
    ghost var first := table.open;
    table.open := table.open + {0, 1, 2};
    if slave > STDERR_FILENO && slave != statusFd {
      table.Close(slave);
    }
    ghost var second := CloseExtraFds(table, statusFd, programLimit);
    CheapPassSuffices(old(table.open), Elements(keep), statusFd, slave, limit, swept, programLimit, second);
  }

  /** What execve may pass on besides the standard streams: the status pipe,
      which is close-on-exec. */
  function ProgramDescriptors(open: set<int>, statusFd: int): set<int> {
    (set fd | fd in open && (fd <= STDERR_FILENO || fd == statusFd)) + {0, 1, 2}
  }

  function BetweenPasses(open: set<int>, statusFd: int, slave: int): set<int> {
    (open + {0, 1, 2}) - (if slave > STDERR_FILENO && slave != statusFd then {slave} else {})
  }

  /** The cheap second pass leaves what a pass over every possible number
      would leave, whichever way either pass ran. */
  lemma CheapPassSuffices(open: set<int>, keep: set<int>, statusFd: int, slave: int, limit: int, swept: bool,
                          programLimit: int, second: bool)
    requires statusFd >= STATUS_FD && statusFd in keep
    requires forall fd | fd in open :: fd < limit
    requires forall fd | fd in keep :: fd < programLimit
    ensures var before := BetweenPasses(Remaining(open, keep, limit, swept), statusFd, slave);
            && AfterExtra(before, statusFd, programLimit, second) == AfterExtra(before, statusFd, limit, false)
            && AfterExtra(before, statusFd, programLimit, second) == ProgramDescriptors(open, statusFd)
  {
    var between := Remaining(open, keep, limit, swept);
    assert forall fd | fd in between :: fd <= STDERR_FILENO || fd in keep;
  }
}
