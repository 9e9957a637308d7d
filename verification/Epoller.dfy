/** `Epoller` and the calls of `Channel` as an object, each a step of `Registry`. */
module Epoller {
  import opened Registry
  import Steps = Registry

  datatype Op = Add | Mod | Del

  class Epoller {
    var chan: map<Id, Channel>
    var channels: map<Fd, Id>
    var kernel: map<Fd, (bv32, Id)>
    var refused: nat

    ghost function View(): Poller
      reads this
    {
      Poller(chan, channels, kernel, refused)
    }

    constructor ()
      ensures View() == Poller(map[], map[], map[], 0)
    {
      chan, channels, kernel, refused := map[], map[], map[], 0;
    }

    /** `update`: one `epoll_ctl` call. */
    method Update(op: Op, i: Id)
      requires i in chan
      modifies this`kernel, this`refused
      ensures View() == match op case Add => CtlAdd(old(View()), i)
                                 case Mod => CtlMod(old(View()), i)
                                 case Del => CtlDel(old(View()), i)
    {
      var c := chan[i];
      if (c.fd in kernel) == op.Add? {
        refused := refused + 1;
      } else if op.Del? {
        kernel := kernel - {c.fd};
      } else {
        kernel := kernel[c.fd := (c.events, i)];
      }
    }

    method UpdateChannel(i: Id)
      requires i in chan
      modifies this
      ensures View() == Steps.UpdateChannel(old(View()), i)
    {
      var c := chan[i];
      if c.status.INIT? || c.status.DELETED? {
        Update(Add, i);
        chan := chan[i := c.(status := LISTEN)];
        channels := channels[c.fd := i];
      } else if c.status.LISTEN? {
        if NoEvent(c) {
          Update(Del, i);
          chan := chan[i := c.(status := NOT_LISTEN)];
        } else {
          Update(Mod, i);
        }
      } else if !NoEvent(c) {
        Update(Add, i);
        chan := chan[i := c.(status := LISTEN)];
      }
    }

    /** Unregistering: afterwards neither table mentions the descriptor, and no
        other channel is affected. */
    method RemoveChannel(i: Id)
      requires i in chan && Agreement(View()) && FdFree(View(), i)
      modifies this
      ensures View() == Steps.RemoveChannel(old(View()), i)
      ensures Agreement(View()) && refused == old(refused)
      ensures chan[i].fd !in channels && chan[i].fd !in kernel
    {
      RemoveAgrees(View(), i);
      var c := chan[i];
      channels := channels - {c.fd};
      if c.status.LISTEN? {
        Update(Del, i);
      }
      chan := chan[i := c.(status := DELETED)];
    }

    /** The five calls of a channel; what they leave is in agreement, and the
        kernel had no reason to refuse them. */
    method Perform(i: Id, r: Request)
      requires i in chan && Agreement(View()) && FdFree(View(), i)
      modifies this
      ensures View() == Steps.Perform(old(View()), i, r)
      ensures Agreement(View()) && refused == old(refused)
    {
      PerformAgrees(View(), i, r);
      chan := chan[i := chan[i].(events := Events(chan[i].events, r))];
      UpdateChannel(i);
    }
  }
}
