/** The `channels_` map and the kernel's interest set of `Epoll.cpp`, on values. */
module EpollSpec {
  import opened Wrappers

  /** The bits of `events_`: POLLIN is 1, POLLPRI 2 and POLLOUT 4. */
  type Mask = bv8

  const NONE_EVENT: Mask := 0
  const READ_EVENT: Mask := 1 | 2
  const WRITE_EVENT: Mask := 4

  datatype Index = New | Added | Deleted

  /** What the kernel keeps for one descriptor: the mask and `data.ptr`. */
  datatype Interest<C> = Interest(mask: Mask, ptr: C)

  datatype Op = CtlAdd | CtlMod | CtlDel

  datatype View<C> = View(channels: map<int, C>, kernel: map<int, Interest<C>>)

  /** The operations that epoll_ctl accepts for a descriptor. */
  predicate Accepted<C>(kernel: map<int, Interest<C>>, op: Op, fd: int) {
    op.CtlAdd? <==> fd !in kernel
  }

  /** epoll_ctl; a refused call (EEXIST, ENOENT) changes nothing. */
  function Ctl<C>(kernel: map<int, Interest<C>>, op: Op, fd: int, i: Interest<C>): map<int, Interest<C>> {
    if !Accepted(kernel, op, fd) then kernel
    else if op.CtlDel? then kernel - {fd}
    else kernel[fd := i]
  }

  /** The three asserts that updateChannel makes, by the value of `index_`. */
  predicate MayUpdate<C(==)>(v: View<C>, fd: int, c: C, index: Index) {
    if index.New? then fd !in v.channels else fd in v.channels && v.channels[fd] == c
  }

  function UpdateOp(index: Index, mask: Mask): Op {
    if !index.Added? then CtlAdd else if mask == NONE_EVENT then CtlDel else CtlMod
  }

  /** updateChannel: the new maps and the new `index_`. */
  function Update<C(==)>(v: View<C>, fd: int, c: C, index: Index, mask: Mask): Outcome<(View<C>, Index)> {
    if !MayUpdate(v, fd, c, index) then Fault(EpollAssertion) else
    var op := UpdateOp(index, mask);
    Ok((View(if index.New? then v.channels[fd := c] else v.channels,
             Ctl(v.kernel, op, fd, Interest(mask, c))),
        if op.CtlDel? then Deleted else Added))
  }

  predicate MayRemove<C(==)>(v: View<C>, fd: int, c: C, index: Index) {
    fd in v.channels && v.channels[fd] == c && !index.New?
  }

  /** removeChannel; the new `index_` is always kNew. */
  function Remove<C(==)>(v: View<C>, fd: int, c: C, index: Index): Outcome<View<C>> {
    if !MayRemove(v, fd, c, index) then Fault(EpollAssertion) else
    var none := Interest(NONE_EVENT, c);
    Ok(View(v.channels - {fd}, if index.Added? then Ctl(v.kernel, CtlDel, fd, none) else v.kernel))
  }
}
