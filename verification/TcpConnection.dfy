/** The output side of `TcpConnection` as an object over a `NetBuffer.Buffer`
    and a channel mask, each method a step of `TcpOutput`. */
module TcpConnection {
  import opened TcpOutput
  import Steps = TcpOutput
  import opened Registry
  import NetBuffer

  /** The mask changes of `enableWriting` and `disableWriting` do what they say
      to the EPOLLOUT bit and leave the others alone. */
  lemma WriteBit(e: bv32)
    ensures (e | WRITE_EVENT) & WRITE_EVENT != 0
    ensures (e & !WRITE_EVENT) & WRITE_EVENT == 0
    ensures (e | WRITE_EVENT) & !WRITE_EVENT == e & !WRITE_EVENT
    ensures NONE_EVENT & WRITE_EVENT == 0
  {
  }

  class Connection {
    const output: NetBuffer.Buffer
    var phase: Phase
    var events: bv32
    ghost var wire: string
    ghost var accepted: string
    ghost var shut: nat
    ghost var early: bool
    ghost var late: bool

    ghost predicate Valid()
      reads this, output, output.buf
    {
      output.Valid() && Inv(View())
    }

    ghost function View(): State
      requires output.Sound()
      reads this, output, output.buf
    {
      State(phase, events & WRITE_EVENT != 0, output.Contents(), wire, accepted, shut, early, late)
    }

    constructor ()
      ensures Valid() && View() == Start() && fresh(output) && fresh(output.buf)
    {
      output := new NetBuffer.Buffer(4096);
      phase, events := Connecting, NONE_EVENT;
      wire, accepted, shut, early, late := "", "", 0, false, false;
      new;
      WriteBit(0);
    }

    /** `sock::write` of `data` with the result `r`. */
    ghost method Emit(data: string, r: Written)
      requires Possible(r, |data|)
      modifies this`wire, this`late
      ensures wire == old(wire) + data[..Taken(r)] && late == (old(late) || shut > 0)
    {
      wire := wire + data[..Taken(r)];
      late := late || shut > 0;
    }

    /** What the socket did not take goes to the buffer, and EPOLLOUT is asked for. */
    method QueueRest(rest: string)
      requires output.Valid() && rest != ""
      modifies this`events, output, output.buf
      ensures output.Valid() && (output.buf == old(output.buf) || fresh(output.buf))
      ensures View() == old(View()).(queued := old(View()).queued + rest, writing := true)
    {
      WriteBit(events);
      output.Append(rest);
      if events & WRITE_EVENT == 0 {
        events := events | WRITE_EVENT;
      }
    }

    method SendInLoop(msg: string, r: Written)
      requires Valid() && Possible(r, |msg|)
      modifies this, output, output.buf
      ensures output.Valid() && View() == Steps.SendInLoop(old(View()), msg, r)
      ensures output.buf == old(output.buf) || fresh(output.buf)
    {
      hide Inv;
      ghost var before := View();
      if phase.Disconnected? {
        return;
      }
      assert msg[..0] == "" && msg[0..] == msg && before.wire + "" == before.wire;
      var nwrote, remaining := 0, |msg|;
      var faultError := false;
      if events & WRITE_EVENT == 0 && output.Readable() == 0 {
        Emit(msg, r);
        match r {
          case Wrote(n) => nwrote, remaining := n, |msg| - n;
          case EPipe => faultError := true;
          case EConnReset => faultError := true;
          case EAgain =>
          case EOther =>
        }
      }
      if !faultError {
        accepted := accepted + msg;
      }
      assert nwrote == if Direct(before) then Taken(r) else 0;
      if !faultError && remaining > 0 {
        QueueRest(msg[nwrote..]);
      }
      assert wire == before.wire + msg[..nwrote];
    }

    method Send(msg: string, r: Written)
      requires Valid() && Possible(r, |msg|)
      modifies this, output, output.buf
      ensures Valid() && View() == Steps.Send(old(View()), msg, r)
      ensures output.buf == old(output.buf) || fresh(output.buf)
    {
      SendInv(View(), msg, r);
      if phase.Connected? {
        SendInLoop(msg, r);
      }
    }

    method ShutdownWriteInLoop()
      requires output.Sound()
      modifies this`shut, this`early
      ensures View() == Steps.ShutdownWriteInLoop(old(View()))
    {
      if events & WRITE_EVENT == 0 {
        shut, early := shut + 1, early || wire != accepted;
      }
    }

    method HandleWrite(r: Written)
      requires Valid() && Possible(r, |output.Contents()|)
      modifies this, output`r
      ensures Valid() && View() == Steps.HandleWrite(old(View()), r)
    {
      HandleWriteInv(View(), r);
      WriteBit(events);
      if events & WRITE_EVENT != 0 {
        Emit(output.Contents(), r);
        if r.Wrote? && r.n > 0 {
          output.Retrieve(r.n);
          if output.Readable() == 0 {
            events := events & !WRITE_EVENT;
            if phase.Disconnecting? {
              ShutdownWriteInLoop();
            }
          }
        }
      }
    }

    method Shutdown()
      requires Valid()
      modifies this`phase, this`shut, this`early
      ensures Valid() && View() == Steps.Shutdown(old(View()))
    {
      NextInv(View(), DoShutdown);
      if phase.Connected? {
        phase := Disconnecting;
        ShutdownWriteInLoop();
      }
    }

    method ForceClose()
      requires Valid()
      modifies this`phase
      ensures Valid() && View() == Steps.ForceClose(old(View()))
    {
      NextInv(View(), DoForceClose);
      if phase.Connected? || phase.Disconnecting? {
        phase := Disconnecting;
      }
    }

    method ConnectEstablished()
      requires Valid() && phase.Connecting?
      modifies this`phase, this`events
      ensures Valid() && View() == Steps.Established(old(View()))
      ensures events == old(events) | READ_EVENT
    {
      NextInv(View(), DoEstablish);
      phase := Connected;
      events := events | READ_EVENT;
      assert (old(events) | READ_EVENT) & WRITE_EVENT == old(events) & WRITE_EVENT;
    }

    method HandleClose()
      requires Valid() && (phase.Connected? || phase.Disconnecting?)
      modifies this`phase, this`events
      ensures Valid() && View() == Steps.HandleClose(old(View()))
    {
      NextInv(View(), DoClose);
      WriteBit(events);
      phase := Disconnected;
      events := NONE_EVENT;
    }
  }
}
